/** The embedded document store: one collection per table, the key facts of its schema,
    and the lookups the repositories and services perform on it.

    Table order in the model is insertion order. Wallets are keyed by profileId, which the
    schema makes their primary key; every other table is keyed by `id`. The compound
    (profileId, itemId) index of inventory rows is NOT unique in the schema: its uniqueness
    is an invariant that the writers maintain, and `ValidTables` states it so that every
    writer has to preserve it. */
module Store {
  import opened Collections
  import opened Models

  datatype Tables = Tables(
    profiles: seq<Profile>,
    pets: seq<Pet>,
    inventoryItems: seq<InventoryItem>,
    storeItems: seq<StoreItem>,
    wallets: map<string, Wallet>,
    transactionLogs: seq<TransactionLog>,
    breedingEvents: seq<BreedingEvent>)

  function PetIds(pets: seq<Pet>): set<string> {
    set p | p in pets :: p.id
  }

  function StoreItemIds(items: seq<StoreItem>): set<string> {
    set i | i in items :: i.id
  }

  function InventoryIds(rows: seq<InventoryItem>): set<string> {
    set r | r in rows :: r.id
  }

  function LogIds(logs: seq<TransactionLog>): set<string> {
    set l | l in logs :: l.id
  }

  function EventIds(events: seq<BreedingEvent>): set<string> {
    set e | e in events :: e.id
  }

  function ProfileIds(profiles: seq<Profile>): set<string> {
    set p | p in profiles :: p.id
  }

  ghost predicate UniquePetIds(pets: seq<Pet>) {
    forall i, j :: 0 <= i < j < |pets| ==> pets[i].id != pets[j].id
  }

  ghost predicate UniqueStoreItemIds(items: seq<StoreItem>) {
    forall i, j :: 0 <= i < j < |items| ==> items[i].id != items[j].id
  }

  /** Primary keys of inventory rows are unique, and so is the (profileId, itemId) pair. */
  ghost predicate UniqueInventoryKeys(rows: seq<InventoryItem>) {
    forall i, j :: 0 <= i < j < |rows| ==>
      rows[i].id != rows[j].id
      && (rows[i].profileId != rows[j].profileId || rows[i].itemId != rows[j].itemId)
  }

  ghost predicate UniqueLogIds(logs: seq<TransactionLog>) {
    forall i, j :: 0 <= i < j < |logs| ==> logs[i].id != logs[j].id
  }

  ghost predicate UniqueEventIds(events: seq<BreedingEvent>) {
    forall i, j :: 0 <= i < j < |events| ==> events[i].id != events[j].id
  }

  ghost predicate UniqueProfileIds(profiles: seq<Profile>) {
    forall i, j :: 0 <= i < j < |profiles| ==> profiles[i].id != profiles[j].id
  }

  ghost predicate WalletsKeyedByProfile(wallets: map<string, Wallet>) {
    forall k :: k in wallets ==> wallets[k].profileId == k
  }

  ghost predicate ValidTables(t: Tables) {
    && UniqueProfileIds(t.profiles)
    && UniquePetIds(t.pets)
    && UniqueInventoryKeys(t.inventoryItems)
    && UniqueStoreItemIds(t.storeItems)
    && WalletsKeyedByProfile(t.wallets)
    && UniqueLogIds(t.transactionLogs)
    && UniqueEventIds(t.breedingEvents)
  }

  /** The inventory floor: no row holds a negative quantity. */
  predicate QuantitiesNonNegative(rows: seq<InventoryItem>) {
    forall i :: 0 <= i < |rows| ==> rows[i].quantity >= 0
  }

  /** `pets.get(id)`. */
  function FindPet(pets: seq<Pet>, id: string): (r: Option<nat>)
    ensures r.Some? ==> r.value < |pets| && pets[r.value].id == id
    ensures r.None? <==> id !in PetIds(pets)
  {
    var r := FindFirst(pets, (p: Pet) => p.id == id);
    assert r.None? ==> forall k :: 0 <= k < |pets| ==> pets[k].id != id;
    r
  }

  /** `storeItems.get(id)`. */
  function FindStoreItem(items: seq<StoreItem>, id: string): (r: Option<nat>)
    ensures r.Some? ==> r.value < |items| && items[r.value].id == id
    ensures r.None? <==> id !in StoreItemIds(items)
  {
    var r := FindFirst(items, (i: StoreItem) => i.id == id);
    assert r.None? ==> forall k :: 0 <= k < |items| ==> items[k].id != id;
    r
  }

  /** `inventoryItems.where('[profileId+itemId]').equals([profileId, itemId]).first()`. */
  function FindInventoryRow(rows: seq<InventoryItem>, profileId: string, itemId: string): (r: Option<nat>)
    ensures r.Some? ==> r.value < |rows| && rows[r.value].profileId == profileId && rows[r.value].itemId == itemId
    ensures r.None? <==> forall k :: 0 <= k < |rows| ==> rows[k].profileId != profileId || rows[k].itemId != itemId
  {
    FindFirst(rows, (row: InventoryItem) => row.profileId == profileId && row.itemId == itemId)
  }

  /** `inventoryItems.get(id)`: the row with the primary key. */
  function FindInventoryById(rows: seq<InventoryItem>, id: string): (r: Option<nat>)
    ensures r.Some? ==> r.value < |rows| && rows[r.value].id == id
    ensures r.None? <==> id !in InventoryIds(rows)
  {
    var r := FindFirst(rows, (row: InventoryItem) => row.id == id);
    assert r.None? ==> forall k :: 0 <= k < |rows| ==> rows[k].id != id;
    r
  }

  /** `pets.put(pet)`: the pet replaces the one with its key, or is appended. */
  function PutPet(pets: seq<Pet>, pet: Pet): seq<Pet> {
    match FindPet(pets, pet.id)
    case Some(k) => pets[k := pet]
    case None => pets + [pet]
  }

  /** `inventoryItems.put(row)`: the row replaces the one with its key, or is appended. */
  function PutInventoryRow(rows: seq<InventoryItem>, row: InventoryItem): seq<InventoryItem> {
    match FindInventoryById(rows, row.id)
    case Some(k) => rows[k := row]
    case None => rows + [row]
  }

  /** Putting a pet whose key is stored replaces that pet in place; the keys stay unique. */
  lemma PutStoredPet(pets: seq<Pet>, k: nat, pet: Pet)
    requires UniquePetIds(pets)
    requires k < |pets| && pets[k].id == pet.id
    ensures PutPet(pets, pet) == pets[k := pet]
    ensures UniquePetIds(pets[k := pet])
    ensures PetIds(pets[k := pet]) == PetIds(pets)
  {
    var r := pets[k := pet];
    forall a, b | 0 <= a < b < |r| ensures r[a].id != r[b].id {
      assert r[a].id == pets[a].id && r[b].id == pets[b].id;
    }
    forall id | id in PetIds(pets) ensures id in PetIds(r) {
      var j :| 0 <= j < |pets| && pets[j].id == id;
      assert r[j].id == id && r[j] in r;
    }
    forall id | id in PetIds(r) ensures id in PetIds(pets) {
      var j :| 0 <= j < |r| && r[j].id == id;
      assert pets[j].id == id && pets[j] in pets;
    }
  }

  /** Putting a row whose key is stored at `k` replaces it in place. */
  lemma PutStoredRow(rows: seq<InventoryItem>, k: nat, row: InventoryItem)
    requires UniqueInventoryKeys(rows)
    requires k < |rows| && rows[k].id == row.id
    ensures PutInventoryRow(rows, row) == rows[k := row]
  {
  }

  /** Under the compound-key invariant the row found is the only one for the pair. */
  lemma FoundRowIsOnlyRow(rows: seq<InventoryItem>, profileId: string, itemId: string, k: nat)
    requires UniqueInventoryKeys(rows)
    requires k < |rows| && rows[k].profileId == profileId && rows[k].itemId == itemId
    ensures FindInventoryRow(rows, profileId, itemId) == Some(k)
  {
  }

  /** Replacing a row by one with the same keys keeps the inventory keys unique. */
  lemma ReplaceRowKeepsKeys(rows: seq<InventoryItem>, i: nat, row: InventoryItem)
    requires UniqueInventoryKeys(rows)
    requires i < |rows|
    requires row.id == rows[i].id && row.profileId == rows[i].profileId && row.itemId == rows[i].itemId
    ensures UniqueInventoryKeys(rows[i := row])
  {
    var r := rows[i := row];
    forall a, b | 0 <= a < b < |r|
      ensures r[a].id != r[b].id
      ensures r[a].profileId != r[b].profileId || r[a].itemId != r[b].itemId
    {
      assert r[a].id == rows[a].id && r[b].id == rows[b].id;
      assert r[a].profileId == rows[a].profileId && r[b].profileId == rows[b].profileId;
      assert r[a].itemId == rows[a].itemId && r[b].itemId == rows[b].itemId;
    }
  }

  /** Appending a row with a fresh id for a pair that has no row keeps the keys unique. */
  lemma AppendRowKeepsKeys(rows: seq<InventoryItem>, row: InventoryItem)
    requires UniqueInventoryKeys(rows)
    requires row.id !in InventoryIds(rows)
    requires FindInventoryRow(rows, row.profileId, row.itemId).None?
    ensures UniqueInventoryKeys(rows + [row])
  {
    var r := rows + [row];
    forall a, b | 0 <= a < b < |r|
      ensures r[a].id != r[b].id
      ensures r[a].profileId != r[b].profileId || r[a].itemId != r[b].itemId
    {
      if b == |rows| {
        assert rows[a] in rows;
      }
    }
  }

  /** Appending a log entry with a fresh id keeps log ids unique. */
  lemma AppendLogKeepsIds(logs: seq<TransactionLog>, log: TransactionLog)
    requires UniqueLogIds(logs)
    requires log.id !in LogIds(logs)
    ensures UniqueLogIds(logs + [log])
  {
    var r := logs + [log];
    forall a, b | 0 <= a < b < |r| ensures r[a].id != r[b].id {
      if b == |logs| {
        assert logs[a] in logs;
      }
    }
  }

  /** Appending an event with a fresh id keeps event ids unique. */
  lemma AppendEventKeepsIds(events: seq<BreedingEvent>, event: BreedingEvent)
    requires UniqueEventIds(events)
    requires event.id !in EventIds(events)
    ensures UniqueEventIds(events + [event])
  {
    var r := events + [event];
    forall a, b | 0 <= a < b < |r| ensures r[a].id != r[b].id {
      if b == |events| {
        assert events[a] in events;
      }
    }
  }

  /** The tables a committed service call leaves, and the value it returns. */
  datatype Step<T> = Step(tables: Tables, value: T)

  /** A transactional call against its specification: on success the tables become the
      specified ones and the specified value is returned; on an error the call throws that
      code and every table is as it was before the call. */
  predicate Committed<T(==)>(spec: Result<Step<T>>, before: Tables, after: Tables, r: Result<T>) {
    match spec
    case Ok(step) => after == step.tables && r == Ok(step.value)
    case Err(code) => after == before && r == Err(code)
  }

  /** The Dexie database: one field per table. */
  class Database {
    var profiles: seq<Profile>
    var pets: seq<Pet>
    var inventoryItems: seq<InventoryItem>
    var storeItems: seq<StoreItem>
    var wallets: map<string, Wallet>
    var transactionLogs: seq<TransactionLog>
    var breedingEvents: seq<BreedingEvent>

    function Snapshot(): Tables
      reads this
    {
      Tables(profiles, pets, inventoryItems, storeItems, wallets, transactionLogs, breedingEvents)
    }

    ghost predicate Valid()
      reads this
    {
      ValidTables(Snapshot())
    }

    constructor ()
      ensures Valid()
      ensures Snapshot() == Tables([], [], [], [], map[], [], [])
    {
      profiles, pets, inventoryItems, storeItems := [], [], [], [];
      wallets, transactionLogs, breedingEvents := map[], [], [];
    }

    /** The three tables a breeding writes after its payment, stored together. */
    method WriteBreedingRecords(pets: seq<Pet>, events: seq<BreedingEvent>, logs: seq<TransactionLog>)
      modifies this
      ensures Snapshot() == old(Snapshot()).(pets := pets, breedingEvents := events, transactionLogs := logs)
    {
      this.pets, breedingEvents, transactionLogs := pets, events, logs;
    }

    /** Aborting a transaction: every table returns to the state saved when it began. */
    method Rollback(saved: Tables)
      modifies this
      ensures Snapshot() == saved
    {
      profiles, pets, inventoryItems, storeItems := saved.profiles, saved.pets, saved.inventoryItems, saved.storeItems;
      wallets, transactionLogs, breedingEvents := saved.wallets, saved.transactionLogs, saved.breedingEvents;
    }
  }
}
