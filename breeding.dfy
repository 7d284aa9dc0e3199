/** BreedingService: two parents of one profile produce a baby, paid for either by a
    breeding-session token from the profile's inventory or, when allowed, by buying the
    cheapest session item with the wallet's balances. */
module Breeding {
  import opened Collections
  import opened Text
  import opened Models
  import opened Store
  import Wallets
  import Inventory
  import Pets
  import Economy

  // ----- which store items are breeding sessions -----

  /** The tag that marks a store item as a breeding session, compared trimmed and lower-cased. */
  const SessionTag: string := "breedingsession"

  predicate HasSessionTag(tags: seq<string>) {
    exists i :: 0 <= i < |tags| && LowerCase(Trim(tags[i])) == SessionTag
  }

  /** `isBreedingSessionStoreItem`: an active item of the session type, or one tagged as such. */
  predicate IsBreedingSessionStoreItem(item: StoreItem) {
    item.isActive && (item.itemType == BreedingSession || HasSessionTag(item.tags))
  }

  /** The comparator of `sortBreedingSessionItems` as an order: by Coins, then PetCoins, then id. */
  predicate SessionLe(a: StoreItem, b: StoreItem) {
    if a.priceCoins != b.priceCoins then a.priceCoins < b.priceCoins
    else if a.pricePetCoins != b.pricePetCoins then a.pricePetCoins < b.pricePetCoins
    else StrLe(a.id, b.id)
  }

  lemma SessionLeIsTotalPreorder()
    ensures TotalPreorder(SessionLe)
  {
    forall a: StoreItem, b: StoreItem ensures SessionLe(a, b) || SessionLe(b, a) {
      StrLeTotal(a.id, b.id);
    }
    forall a: StoreItem, b: StoreItem, c: StoreItem | SessionLe(a, b) && SessionLe(b, c)
      ensures SessionLe(a, c)
    {
      if a.priceCoins == b.priceCoins == c.priceCoins && a.pricePetCoins == b.pricePetCoins == c.pricePetCoins {
        StrLeTransitive(a.id, b.id, c.id);
      }
    }
  }

  /** `sortBreedingSessionItems`: a sorted copy; the input sequence is a value and stays as it is. */
  function SortBreedingSessionItems(items: seq<StoreItem>): (r: seq<StoreItem>)
    ensures SortedBy(r, SessionLe)
    ensures multiset(r) == multiset(items)
  {
    SessionLeIsTotalPreorder();
    SortBySorted(items, SessionLe);
    SortBy(items, SessionLe)
  }

  /** The catalog's session items, cheapest first. */
  function SessionItems(storeItems: seq<StoreItem>): (r: seq<StoreItem>)
    ensures SortedBy(r, SessionLe)
    ensures forall x :: x in r <==> x in storeItems && IsBreedingSessionStoreItem(x)
  {
    var candidates := Filter(storeItems, IsBreedingSessionStoreItem);
    var r := SortBreedingSessionItems(candidates);
    assert forall x :: x in r <==> x in multiset(candidates);
    r
  }

  // ----- the baby -----

  /** `getBabySpecies`. */
  function GetBabySpecies(a: Pet, b: Pet): (r: Species)
    ensures r == a.species <==> a.species == b.species || a.species == Mixed
    ensures r == Mixed || r == a.species == b.species
  {
    if a.species == b.species then a.species else Mixed
  }

  /** `Array.from(new Set(s))`: each element is added to an insertion-ordered set in turn. */
  function Dedup<T(==)>(s: seq<T>): seq<T> {
    if s == [] then []
    else
      var init := Dedup(s[..|s| - 1]);
      if s[|s| - 1] in init then init else init + [s[|s| - 1]]
  }

  /** The position of the first occurrence of `x` in `s`. */
  function IndexOf<T(==)>(s: seq<T>, x: T): (r: nat)
    requires x in s
    ensures r < |s| && s[r] == x && x !in s[..r]
  {
    if s[0] == x then 0
    else
      var r := IndexOf(s[1..], x) + 1;
      assert s[..r] == [s[0]] + s[1..][..r - 1];
      r
  }

  lemma IndexOfPrefix<T>(s: seq<T>, x: T, y: T)
    requires y in s
    ensures IndexOf(s + [x], y) == IndexOf(s, y)
  {
    var i := IndexOf(s, y);
    assert (s + [x])[i] == y;
  }

  predicate NoDuplicates<T(==)>(s: seq<T>) {
    forall i, j :: 0 <= i < j < |s| ==> s[i] != s[j]
  }

  /** The set's array form holds exactly the elements of `s`, each once, in the order of
      their first occurrences in `s`. */
  lemma {:induction false} DedupSpec<T>(s: seq<T>)
    ensures forall x :: x in Dedup(s) <==> x in s
    ensures NoDuplicates(Dedup(s))
    ensures forall i, j :: 0 <= i < j < |Dedup(s)| ==> IndexOf(s, Dedup(s)[i]) < IndexOf(s, Dedup(s)[j])
  {
    if s != [] {
      var p := s[..|s| - 1];
      var x := s[|s| - 1];
      assert s == p + [x];
      DedupSpec(p);
      var init := Dedup(p);
      var r := Dedup(s);
      forall y | y in p ensures IndexOf(s, y) == IndexOf(p, y) {
        IndexOfPrefix(p, x, y);
      }
      if x !in init {
        assert r == init + [x];
        assert IndexOf(s, x) == |p|;
        forall i, j | 0 <= i < j < |r| ensures IndexOf(s, r[i]) < IndexOf(s, r[j]) {
          assert r[i] == init[i];
          assert init[i] in init;
          if j < |init| {
            assert r[j] == init[j] && r[j] in p;
          }
        }
      } else {
        forall i, j | 0 <= i < j < |r| ensures IndexOf(s, r[i]) < IndexOf(s, r[j]) {
          assert r[i] in p && r[j] in p;
        }
      }
    }
  }

  /** `getBabyTags`: both parents' tags and "baby", without duplicates. */
  function GetBabyTags(a: Pet, b: Pet): seq<string> {
    Dedup(a.tags + b.tags + ["baby"])
  }

  /** The baby carries "baby" and every tag of either parent, nothing else, each tag
      once, ordered by first occurrence in A's tags, then B's, then "baby". */
  lemma BabyTagsSpec(a: Pet, b: Pet)
    ensures var tags := GetBabyTags(a, b);
      && "baby" in tags
      && (forall t :: t in tags <==> t in a.tags || t in b.tags || t == "baby")
      && NoDuplicates(tags)
      && (forall i, j :: 0 <= i < j < |tags| ==>
            IndexOf(a.tags + b.tags + ["baby"], tags[i]) < IndexOf(a.tags + b.tags + ["baby"], tags[j]))
  {
    var all := a.tags + b.tags + ["baby"];
    DedupSpec(all);
    assert all[|all| - 1] == "baby";
  }

  function BabyName(nameA: string, nameB: string): string {
    "Baby of " + nameA + " + " + nameB
  }

  function BabyNotes(nameA: string, nameB: string): string {
    "Bred from " + nameA + " + " + nameB + "."
  }

  /** The baby pet `runBreeding` adds. */
  function BabyPet(profileId: string, a: Pet, b: Pet, babyId: string, now: string): Pet {
    Pet(babyId, profileId, BabyName(a.name, b.name), GetBabySpecies(a, b), UnknownGender, false,
        GetBabyTags(a, b), 0, None, Some(BabyNotes(a.name, b.name)), now, now)
  }

  /** The log note: "used ... from inventory" when no money moved, "bought and used" otherwise. */
  function BreedingNote(nameA: string, nameB: string, itemName: string, noMoneyMoved: bool): string {
    if noMoneyMoved then "Breeding: " + nameA + " + " + nameB + " used \"" + itemName + "\" from inventory."
    else "Breeding: " + nameA + " + " + nameB + " bought and used \"" + itemName + "\"."
  }

  /** `createTransaction` of this service: a `breeding` entry with the trimmed notes. */
  function CreateBreedingTransaction(id: string, profileId: string, deltaPetCoins: int, deltaCoins: int,
                                     notes: string, now: string): TransactionLog
  {
    TransactionLog(id, profileId, BreedingKind, deltaPetCoins, deltaCoins, Trim(notes), now)
  }

  /** `createBreedingEvent`. */
  function CreateBreedingEvent(id: string, profileId: string, parentAId: string, parentBId: string,
                               babyPetId: string, usedBreedingSessionItem: bool, now: string): BreedingEvent
  {
    BreedingEvent(id, profileId, parentAId, parentBId, babyPetId, usedBreedingSessionItem, now)
  }

  // ----- reading the parents and the session options -----

  /** `getParentPet`: the pet with the id, provided it belongs to the profile. */
  function GetParentPet(pets: seq<Pet>, profileId: string, petId: string): Result<Pet> {
    match FindPet(pets, petId)
    case None => Err(NotFound)
    case Some(k) => if pets[k].profileId != profileId then Err(NotFound) else Ok(pets[k])
  }

  /** A parent is found exactly when a pet of the profile has the id. */
  lemma GetParentPetSpec(pets: seq<Pet>, profileId: string, petId: string)
    requires UniquePetIds(pets)
    ensures var r := GetParentPet(pets, profileId, petId);
      && (r.Ok? <==> exists k :: 0 <= k < |pets| && pets[k].id == petId && pets[k].profileId == profileId)
      && (r.Err? ==> r.code == NotFound)
      && (r.Ok? ==> r.value in pets && r.value.id == petId && r.value.profileId == profileId)
  {
    match FindPet(pets, petId)
    case None =>
    case Some(k) =>
      assert forall j :: 0 <= j < |pets| && pets[j].id == petId ==> j == k;
  }

  /** `new Map(rows.map(row => [row.itemId, row]))`: a later row overrides an earlier one. */
  function InventoryByItemId(rows: seq<InventoryItem>): map<string, InventoryItem> {
    if rows == [] then map[]
    else InventoryByItemId(rows[..|rows| - 1])[rows[|rows| - 1].itemId := rows[|rows| - 1]]
  }

  /** Every item id of the rows is a key of the map. */
  lemma {:induction false} InventoryByItemIdKeys(rows: seq<InventoryItem>, k: nat)
    requires k < |rows|
    ensures rows[k].itemId in InventoryByItemId(rows)
  {
    var p := rows[..|rows| - 1];
    if k < |p| {
      assert rows[k] == p[k];
      InventoryByItemIdKeys(p, k);
    }
  }

  /** Each key of the map maps to a row with that item id. */
  lemma {:induction false} InventoryByItemIdValues(rows: seq<InventoryItem>, id: string)
    requires id in InventoryByItemId(rows)
    ensures InventoryByItemId(rows)[id] in rows && InventoryByItemId(rows)[id].itemId == id
  {
    var p := rows[..|rows| - 1];
    if id != rows[|rows| - 1].itemId {
      InventoryByItemIdValues(p, id);
      assert InventoryByItemId(rows)[id] == InventoryByItemId(p)[id];
    }
  }

  /** A row that no later row shares an item id with is the one the map keeps. */
  lemma {:induction false} InventoryByItemIdLastWins(rows: seq<InventoryItem>, k: nat)
    requires k < |rows|
    requires forall j :: k < j < |rows| ==> rows[j].itemId != rows[k].itemId
    ensures rows[k].itemId in InventoryByItemId(rows) && InventoryByItemId(rows)[rows[k].itemId] == rows[k]
  {
    var p := rows[..|rows| - 1];
    if k < |p| {
      assert rows[k] == p[k];
      forall j | k < j < |p| ensures p[j].itemId != p[k].itemId {
        assert p[j] == rows[j];
      }
      InventoryByItemIdLastWins(p, k);
      InventoryByItemIdKeys(p, k);
    }
  }

  /** The profile's stock of an item: its row's quantity, 0 without a row. */
  function StockOf(rows: seq<InventoryItem>, profileId: string, itemId: string): int {
    match FindInventoryRow(rows, profileId, itemId)
    case Some(i) => rows[i].quantity
    case None => 0
  }

  /** The source's lookup through the map of the profile's rows finds the one row of the
      pair, given that the pair is unique. */
  lemma ProfileRowLookup(rows: seq<InventoryItem>, profileId: string, itemId: string)
    requires UniqueInventoryKeys(rows)
    ensures var m := InventoryByItemId(Inventory.RowsOfProfile(rows, profileId));
      && (itemId in m <==> FindInventoryRow(rows, profileId, itemId).Some?)
      && (itemId in m ==> m[itemId] == rows[FindInventoryRow(rows, profileId, itemId).value])
  {
    var mine := Inventory.RowsOfProfile(rows, profileId);
    var m := InventoryByItemId(mine);
    if itemId in m {
      InventoryByItemIdValues(mine, itemId);
    }
    match FindInventoryRow(rows, profileId, itemId)
    case Some(i) =>
      assert rows[i] in mine;
      var k :| 0 <= k < |mine| && mine[k] == rows[i];
      InventoryByItemIdKeys(mine, k);
      assert m[itemId] in rows;
      var j :| 0 <= j < |rows| && rows[j] == m[itemId];
      assert j == i;
    case None =>
  }

  /** A session item and the profile's row for it, as `resolveBreedingSessionOption` pairs them. */
  datatype SessionOption = SessionOption(storeItem: StoreItem, inventoryItem: Option<InventoryItem>)

  datatype Resolution = Resolution(inventoryOption: Option<SessionOption>, fallbackStoreItem: StoreItem)

  /** `(option.inventoryItem?.quantity ?? 0) > 0`. */
  predicate HasStock(byItemId: map<string, InventoryItem>, item: StoreItem) {
    item.id in byItemId && byItemId[item.id].quantity > 0
  }

  /** `sessionItems.find(...)` over the options with stock. */
  function FirstInStock(items: seq<StoreItem>, byItemId: map<string, InventoryItem>): (r: Option<nat>)
    ensures r.Some? ==> r.value < |items| && HasStock(byItemId, items[r.value])
    ensures r.Some? ==> forall k :: 0 <= k < r.value ==> !HasStock(byItemId, items[k])
    ensures r.None? ==> forall k :: 0 <= k < |items| ==> !HasStock(byItemId, items[k])
  {
    FindFirst(items, (x: StoreItem) => HasStock(byItemId, x))
  }

  /** `resolveBreedingSessionOption`: NOT_FOUND without a session item; otherwise the first
      session item, cheapest first, that the profile has in stock (if any) and the cheapest
      session item as the fallback. */
  function ResolveBreedingSessionOption(t: Tables, profileId: string): Result<Resolution> {
    var sessionItems := SessionItems(t.storeItems);
    if sessionItems == [] then Err(NotFound)
    else
      var byItemId := InventoryByItemId(Inventory.RowsOfProfile(t.inventoryItems, profileId));
      var option :=
        match FirstInStock(sessionItems, byItemId)
        case Some(i) => Some(SessionOption(sessionItems[i], Some(byItemId[sessionItems[i].id])))
        case None => None;
      Ok(Resolution(option, sessionItems[0]))
  }

  /** The profile holds a token of some session item. */
  ghost predicate HasToken(t: Tables, profileId: string) {
    exists x :: x in t.storeItems && IsBreedingSessionStoreItem(x) && StockOf(t.inventoryItems, profileId, x.id) > 0
  }

  /** Resolution fails exactly when the catalog has no session item; otherwise the fallback
      is the head of the sorted session items and a least one in the comparator's order. */
  lemma ResolveFallback(t: Tables, profileId: string)
    ensures var r := ResolveBreedingSessionOption(t, profileId);
      && (r.Err? <==> forall x :: x in t.storeItems ==> !IsBreedingSessionStoreItem(x))
      && (r.Err? ==> r.code == NotFound)
      && (r.Ok? ==>
            && r.value.fallbackStoreItem == SessionItems(t.storeItems)[0]
            && IsBreedingSessionStoreItem(r.value.fallbackStoreItem) && r.value.fallbackStoreItem in t.storeItems
            && forall x :: x in t.storeItems && IsBreedingSessionStoreItem(x) ==> SessionLe(r.value.fallbackStoreItem, x))
  {
    var items := SessionItems(t.storeItems);
    if items != [] {
      assert items[0] in items;
      SessionLeIsTotalPreorder();
      SortByHeadIsLeast(Filter(t.storeItems, IsBreedingSessionStoreItem), SessionLe);
    }
  }

  /** Under the compound-key invariant the map lookup agrees with the stock of the pair. */
  lemma StockAgrees(t: Tables, profileId: string, x: StoreItem)
    requires UniqueInventoryKeys(t.inventoryItems)
    ensures var byItemId := InventoryByItemId(Inventory.RowsOfProfile(t.inventoryItems, profileId));
      && (HasStock(byItemId, x) <==> StockOf(t.inventoryItems, profileId, x.id) > 0)
      && (x.id in byItemId <==> FindInventoryRow(t.inventoryItems, profileId, x.id).Some?)
      && (x.id in byItemId ==>
            byItemId[x.id] == t.inventoryItems[FindInventoryRow(t.inventoryItems, profileId, x.id).value])
  {
    ProfileRowLookup(t.inventoryItems, profileId, x.id);
  }

  /** There is an inventory option exactly when the profile holds a token. */
  lemma ResolveTokenExists(t: Tables, profileId: string)
    requires UniqueInventoryKeys(t.inventoryItems)
    requires ResolveBreedingSessionOption(t, profileId).Ok?
    ensures ResolveBreedingSessionOption(t, profileId).value.inventoryOption.Some? <==> HasToken(t, profileId)
  {
    var items := SessionItems(t.storeItems);
    var byItemId := InventoryByItemId(Inventory.RowsOfProfile(t.inventoryItems, profileId));
    match FirstInStock(items, byItemId)
    case Some(i) =>
      StockAgrees(t, profileId, items[i]);
      assert items[i] in items;
    case None =>
      if HasToken(t, profileId) {
        var x :| x in t.storeItems && IsBreedingSessionStoreItem(x) && StockOf(t.inventoryItems, profileId, x.id) > 0;
        TokenIsOption(t, profileId, byItemId, x);
        assert false;
      }
  }

  lemma TokenIsOption(t: Tables, profileId: string, byItemId: map<string, InventoryItem>, x: StoreItem)
    requires UniqueInventoryKeys(t.inventoryItems)
    requires byItemId == InventoryByItemId(Inventory.RowsOfProfile(t.inventoryItems, profileId))
    requires x in t.storeItems && IsBreedingSessionStoreItem(x) && StockOf(t.inventoryItems, profileId, x.id) > 0
    ensures FirstInStock(SessionItems(t.storeItems), byItemId).Some?
  {
    var items := SessionItems(t.storeItems);
    assert x in items;
    var k :| 0 <= k < |items| && items[k] == x;
    StockAgrees(t, profileId, x);
    assert HasStock(byItemId, items[k]);
  }

  /** The inventory option is the first session item, cheapest first, with stock, paired
      with the profile's row for it. */
  lemma ResolveTokenIsFirst(t: Tables, profileId: string)
    requires UniqueInventoryKeys(t.inventoryItems)
    requires ResolveBreedingSessionOption(t, profileId).Ok?
    requires ResolveBreedingSessionOption(t, profileId).value.inventoryOption.Some?
    ensures var option := ResolveBreedingSessionOption(t, profileId).value.inventoryOption.value;
      var items := SessionItems(t.storeItems);
      var rows := t.inventoryItems;
      && (exists i :: 0 <= i < |items| && items[i] == option.storeItem
            && StockOf(rows, profileId, items[i].id) > 0
            && forall j :: 0 <= j < i ==> StockOf(rows, profileId, items[j].id) <= 0)
      && FindInventoryRow(rows, profileId, option.storeItem.id).Some?
      && option.inventoryItem == Some(rows[FindInventoryRow(rows, profileId, option.storeItem.id).value])
  {
    var items := SessionItems(t.storeItems);
    var rows := t.inventoryItems;
    var byItemId := InventoryByItemId(Inventory.RowsOfProfile(rows, profileId));
    var i := FirstInStock(items, byItemId).value;
    StockAgrees(t, profileId, items[i]);
    forall j | 0 <= j < i ensures StockOf(rows, profileId, items[j].id) <= 0 {
      StockAgrees(t, profileId, items[j]);
    }
  }

  // ----- runBreeding -----

  datatype RunBreedingInput = RunBreedingInput(
    profileId: string,
    parentAId: string,
    parentBId: string,
    allowCrossSpecies: bool,
    autoBuySessionIfNeeded: bool)

  datatype RunBreedingResult = RunBreedingResult(
    parentA: Pet,
    parentB: Pet,
    babyPet: Pet,
    breedingEvent: BreedingEvent,
    transactionLog: TransactionLog,
    wallet: Wallet,
    usedBreedingSessionItem: bool,
    purchasedBreedingSession: bool,
    breedingSessionStoreItem: StoreItem)

  /** How the session was paid: the tables after the payment, the wallet the call reports,
      whether a token was used, the session item and the money moved. */
  datatype Payment = Payment(
    tables: Tables,
    wallet: Wallet,
    usedToken: bool,
    item: StoreItem,
    deltaPetCoins: int,
    deltaCoins: int)

  /** The payment step of `runBreeding`, on tables where the wallet is already ensured:
      a token is taken from the inventory row, or else (when auto-buy is on and the
      balances cover it) the fallback item is bought. */
  function PaySession(t: Tables, profileId: string, autoBuy: bool, res: Resolution, wallet: Wallet,
                      now: string): Result<Payment>
  {
    match res.inventoryOption
    case Some(option) =>
      if option.inventoryItem.None? || option.inventoryItem.value.quantity <= 0 then Err(NotFound)
      else
        var row := option.inventoryItem.value;
        var updated := row.(quantity := Max(0, row.quantity - 1), updatedAt := now);
        Ok(Payment(t.(inventoryItems := PutInventoryRow(t.inventoryItems, updated)), wallet, true,
                   option.storeItem, 0, 0))
    case None =>
      var item := res.fallbackStoreItem;
      if !autoBuy then Err(BreedingSessionRequired)
      else if wallet.petCoins < item.pricePetCoins || wallet.coins < item.priceCoins then Err(InsufficientFunds)
      else
        var paid := wallet.(petCoins := wallet.petCoins - item.pricePetCoins,
                            coins := wallet.coins - item.priceCoins, updatedAt := now);
        Ok(Payment(t.(wallets := t.wallets[profileId := paid]), paid, false, item,
                   -item.pricePetCoins, -item.priceCoins))
  }

  /** A parent after a breeding: one more breeding counted, stamped with the time. */
  function Bred(p: Pet, now: string): Pet {
    p.(breedCount := p.breedCount + 1, updatedAt := now)
  }

  /** The writes after the payment: both parents are put back with one more breeding, the
      baby and the event are added, and a `breeding` entry records the money moved. */
  function BreedingCommit(t: Tables, profileId: string, a: Pet, b: Pet, pay: Payment, babyId: string,
                          eventId: string, logId: string, now: string): Step<RunBreedingResult>
  {
    var updatedA := Bred(a, now);
    var updatedB := Bred(b, now);
    var baby := BabyPet(profileId, a, b, babyId, now);
    var event := CreateBreedingEvent(eventId, profileId, a.id, b.id, babyId, pay.usedToken, now);
    var notes := BreedingNote(a.name, b.name, pay.item.name, pay.deltaPetCoins == 0 && pay.deltaCoins == 0);
    var log := CreateBreedingTransaction(logId, profileId, pay.deltaPetCoins, pay.deltaCoins, notes, now);
    Step(t.(pets := PutPet(PutPet(t.pets, updatedA), updatedB) + [baby],
            breedingEvents := t.breedingEvents + [event],
            transactionLogs := t.transactionLogs + [log]),
         RunBreedingResult(updatedA, updatedB, baby, event, log, pay.wallet, pay.usedToken, !pay.usedToken, pay.item))
  }

  /** The parents read and the payment made, before the remaining writes. */
  datatype Plan = Plan(parentA: Pet, parentB: Pet, payment: Payment)

  /** The checks of `runBreeding` in the order the source makes them, then the payment. */
  function BreedingPlan(t: Tables, input: RunBreedingInput, now: string): Result<Plan> {
    if input.parentAId == input.parentBId then Err(InvalidInput)
    else
      var ra := GetParentPet(t.pets, input.profileId, input.parentAId);
      var rb := GetParentPet(t.pets, input.profileId, input.parentBId);
      if ra.Err? then Err(ra.code)
      else if rb.Err? then Err(rb.code)
      else if !input.allowCrossSpecies && ra.value.species != rb.value.species then Err(InvalidInput)
      else
        var res := ResolveBreedingSessionOption(t, input.profileId);
        if res.Err? then Err(res.code)
        else
          var ensured := t.(wallets := Wallets.EnsureWallet(t.wallets, input.profileId, 0, 0, now));
          var wallet := Wallets.WalletOf(t.wallets, input.profileId, now);
          var pay := PaySession(ensured, input.profileId, input.autoBuySessionIfNeeded, res.value, wallet, now);
          if pay.Err? then Err(pay.code)
          else Ok(Plan(ra.value, rb.value, pay.value))
  }

  /** `runBreeding`. `babyId`, `eventId` and `logId` stand for the fresh ids the call
      draws, `now` for its clock. */
  function RunBreedingOutcome(t: Tables, input: RunBreedingInput, babyId: string, eventId: string,
                              logId: string, now: string): Result<Step<RunBreedingResult>>
  {
    match BreedingPlan(t, input, now)
    case Err(code) => Err(code)
    case Ok(plan) =>
      Ok(BreedingCommit(plan.payment.tables, input.profileId, plan.parentA, plan.parentB, plan.payment,
                        babyId, eventId, logId, now))
  }

  /** Both parents are pets of the profile, distinct, and of one species unless cross-species
      breeding is allowed. */
  ghost predicate ParentsOk(t: Tables, input: RunBreedingInput) {
    && input.parentAId != input.parentBId
    && GetParentPet(t.pets, input.profileId, input.parentAId).Ok?
    && GetParentPet(t.pets, input.profileId, input.parentBId).Ok?
    && (input.allowCrossSpecies
        || GetParentPet(t.pets, input.profileId, input.parentAId).value.species
           == GetParentPet(t.pets, input.profileId, input.parentBId).value.species)
  }

  ghost predicate HasSessionItem(items: seq<StoreItem>) {
    exists x :: x in items && IsBreedingSessionStoreItem(x)
  }

  /** The token check of the source (`!inventoryItem || quantity <= 0`) never fires: the
      option chosen always has a row with stock. */
  lemma TokenCheckNeverFires(t: Tables, profileId: string)
    requires ResolveBreedingSessionOption(t, profileId).Ok?
    requires ResolveBreedingSessionOption(t, profileId).value.inventoryOption.Some?
    ensures var option := ResolveBreedingSessionOption(t, profileId).value.inventoryOption.value;
      option.inventoryItem.Some? && option.inventoryItem.value.quantity > 0
  {
    var items := SessionItems(t.storeItems);
    var byItemId := InventoryByItemId(Inventory.RowsOfProfile(t.inventoryItems, profileId));
    var i := FirstInStock(items, byItemId).value;
    assert HasStock(byItemId, items[i]);
  }

  /** The input errors of `runBreeding`, in the source's order: equal ids and the species
      rule give INVALID_INPUT; a parent not in the profile, or a catalog without session
      items once the parents are in order, gives NOT_FOUND. */
  lemma BreedingInputErrors(t: Tables, input: RunBreedingInput, babyId: string, eventId: string,
                            logId: string, now: string)
    ensures var r := RunBreedingOutcome(t, input, babyId, eventId, logId, now);
      var ra := GetParentPet(t.pets, input.profileId, input.parentAId);
      var rb := GetParentPet(t.pets, input.profileId, input.parentBId);
      && (r == Err(InvalidInput) <==>
            input.parentAId == input.parentBId
            || (ra.Ok? && rb.Ok? && !input.allowCrossSpecies && ra.value.species != rb.value.species))
      && (r == Err(NotFound) <==>
            input.parentAId != input.parentBId
            && (ra.Err? || rb.Err? || (ParentsOk(t, input) && !HasSessionItem(t.storeItems))))
  {
    if ParentsOk(t, input) {
      PaymentStage(t, input, now);
    }
  }

  /** Once the parents are in order the plan fails only in the session stage: NOT_FOUND
      without session items, then the two payment errors, and only without a token. */
  lemma PaymentStage(t: Tables, input: RunBreedingInput, now: string)
    requires ParentsOk(t, input)
    ensures var plan := BreedingPlan(t, input, now);
      var res := ResolveBreedingSessionOption(t, input.profileId);
      && (plan == Err(NotFound) <==> !HasSessionItem(t.storeItems))
      && (plan.Err? ==> plan.code in {NotFound, BreedingSessionRequired, InsufficientFunds})
      && (res.Ok? && res.value.inventoryOption.Some? ==> plan.Ok?)
  {
    ResolveFallback(t, input.profileId);
    var res := ResolveBreedingSessionOption(t, input.profileId);
    if res.Ok? {
      assert HasSessionItem(t.storeItems) by {
        assert res.value.fallbackStoreItem in t.storeItems;
      }
      if res.value.inventoryOption.Some? {
        TokenCheckNeverFires(t, input.profileId);
      }
    }
  }

  /** With the parents and the session items in order, a profile without a token fails
      BREEDING_SESSION_REQUIRED when auto-buy is off and INSUFFICIENT_FUNDS when the wallet
      (0/0 when missing) cannot pay for the cheapest session item; a profile with a token
      never fails at this stage. */
  lemma BreedingPaymentErrors(t: Tables, input: RunBreedingInput, babyId: string, eventId: string,
                              logId: string, now: string)
    requires UniqueInventoryKeys(t.inventoryItems)
    ensures var r := RunBreedingOutcome(t, input, babyId, eventId, logId, now);
      var ready := ParentsOk(t, input) && HasSessionItem(t.storeItems) && !HasToken(t, input.profileId);
      && (r == Err(BreedingSessionRequired) <==> ready && !input.autoBuySessionIfNeeded)
      && (r == Err(InsufficientFunds) <==>
            && ready && input.autoBuySessionIfNeeded
            && var w := Wallets.WalletOf(t.wallets, input.profileId, now);
               var cheapest := SessionItems(t.storeItems)[0];
               w.petCoins < cheapest.pricePetCoins || w.coins < cheapest.priceCoins)
  {
    if ParentsOk(t, input) {
      PaymentStage(t, input, now);
      var res := ResolveBreedingSessionOption(t, input.profileId);
      if res.Ok? {
        ResolveFallback(t, input.profileId);
        ResolveTokenExists(t, input.profileId);
      }
    }
  }

  /** The payment and the writes of `runBreeding` for parents and session options already read. */
  function SessionOutcome(t: Tables, profileId: string, autoBuy: bool, a: Pet, b: Pet, res: Resolution,
                          babyId: string, eventId: string, logId: string, now: string): Result<Step<RunBreedingResult>>
  {
    var ensured := t.(wallets := Wallets.EnsureWallet(t.wallets, profileId, 0, 0, now));
    match PaySession(ensured, profileId, autoBuy, res, Wallets.WalletOf(t.wallets, profileId, now), now)
    case Err(code) => Err(code)
    case Ok(pay) => Ok(BreedingCommit(pay.tables, profileId, a, b, pay, babyId, eventId, logId, now))
  }

  /** The payment and the writes keep every table invariant, when both parents are stored
      pets with distinct ids, the drawn ids are fresh and the token row is stored. */
  lemma SessionKeepsValid(t: Tables, profileId: string, autoBuy: bool, a: Pet, b: Pet, res: Resolution,
                          babyId: string, eventId: string, logId: string, now: string)
    requires ValidTables(t)
    requires babyId !in PetIds(t.pets) && eventId !in EventIds(t.breedingEvents)
    requires logId !in LogIds(t.transactionLogs)
    requires a in t.pets && b in t.pets && a.id != b.id
    requires res.inventoryOption.Some? && res.inventoryOption.value.inventoryItem.Some? ==>
               res.inventoryOption.value.inventoryItem.value in t.inventoryItems
    requires SessionOutcome(t, profileId, autoBuy, a, b, res, babyId, eventId, logId, now).Ok?
    ensures ValidTables(SessionOutcome(t, profileId, autoBuy, a, b, res, babyId, eventId, logId, now).value.tables)
  {
    var ensured := t.(wallets := Wallets.EnsureWallet(t.wallets, profileId, 0, 0, now));
    Wallets.WalletWritesKeepKeying(t.wallets, profileId, 0, 0, now);
    var wallet := Wallets.WalletOf(t.wallets, profileId, now);
    var pay := PaySession(ensured, profileId, autoBuy, res, wallet, now).value;
    PayKeepsValid(ensured, profileId, autoBuy, res, wallet, now);
    PayWritesWalletsAndInventory(ensured, profileId, autoBuy, res, wallet, now);
    var ka :| 0 <= ka < |t.pets| && t.pets[ka] == a;
    var kb :| 0 <= kb < |t.pets| && t.pets[kb] == b;
    CommitKeepsValid(pay.tables, profileId, a, b, pay, babyId, eventId, logId, now, ka, kb);
  }

  /** Once the parents are in order and the session options resolved, the call is its
      payment and writes. */
  lemma OutcomeAfterChecks(t: Tables, input: RunBreedingInput, babyId: string, eventId: string,
                           logId: string, now: string)
    requires ParentsOk(t, input)
    requires ResolveBreedingSessionOption(t, input.profileId).Ok?
    ensures RunBreedingOutcome(t, input, babyId, eventId, logId, now)
            == SessionOutcome(t, input.profileId, input.autoBuySessionIfNeeded,
                              GetParentPet(t.pets, input.profileId, input.parentAId).value,
                              GetParentPet(t.pets, input.profileId, input.parentBId).value,
                              ResolveBreedingSessionOption(t, input.profileId).value,
                              babyId, eventId, logId, now)
  {
  }

  /** A successful call is the commit of its plan. */
  lemma OutcomeOfPlan(t: Tables, input: RunBreedingInput, babyId: string, eventId: string,
                      logId: string, now: string)
    requires RunBreedingOutcome(t, input, babyId, eventId, logId, now).Ok?
    ensures BreedingPlan(t, input, now).Ok?
    ensures var plan := BreedingPlan(t, input, now).value;
      RunBreedingOutcome(t, input, babyId, eventId, logId, now).value
      == BreedingCommit(plan.payment.tables, input.profileId, plan.parentA, plan.parentB, plan.payment,
                        babyId, eventId, logId, now)
  {
  }

  /** A plan is made only with the parents in order and a resolved session, and its payment
      is the payment step on the tables with the wallet ensured. */
  lemma PlanFacts(t: Tables, input: RunBreedingInput, now: string)
    requires BreedingPlan(t, input, now).Ok?
    ensures var plan := BreedingPlan(t, input, now).value;
      var res := ResolveBreedingSessionOption(t, input.profileId);
      && ParentsOk(t, input)
      && plan.parentA == GetParentPet(t.pets, input.profileId, input.parentAId).value
      && plan.parentB == GetParentPet(t.pets, input.profileId, input.parentBId).value
      && res.Ok?
      && PaySession(t.(wallets := Wallets.EnsureWallet(t.wallets, input.profileId, 0, 0, now)),
                    input.profileId, input.autoBuySessionIfNeeded, res.value,
                    Wallets.WalletOf(t.wallets, input.profileId, now), now) == Ok(plan.payment)
  {
  }

  /** The payment writes only the wallets and the inventory. */
  lemma PayWritesWalletsAndInventory(t: Tables, profileId: string, autoBuy: bool, res: Resolution,
                                     wallet: Wallet, now: string)
    requires PaySession(t, profileId, autoBuy, res, wallet, now).Ok?
    ensures var pay := PaySession(t, profileId, autoBuy, res, wallet, now).value;
      pay.tables == t.(inventoryItems := pay.tables.inventoryItems, wallets := pay.tables.wallets)
  {
  }

  /** Paying with a token: the option's row, which has stock, loses one unit; the wallet is
      reported as it is and no money moves. */
  lemma PayTokenPath(t: Tables, profileId: string, autoBuy: bool, res: Resolution, wallet: Wallet, now: string)
    requires PaySession(t, profileId, autoBuy, res, wallet, now).Ok?
    requires PaySession(t, profileId, autoBuy, res, wallet, now).value.usedToken
    ensures var pay := PaySession(t, profileId, autoBuy, res, wallet, now).value;
      && res.inventoryOption.Some? && res.inventoryOption.value.inventoryItem.Some?
      && var row := res.inventoryOption.value.inventoryItem.value;
         && row.quantity > 0
         && pay.tables.inventoryItems
            == PutInventoryRow(t.inventoryItems, row.(quantity := row.quantity - 1, updatedAt := now))
         && pay.tables.wallets == t.wallets && pay.wallet == wallet
         && pay.item == res.inventoryOption.value.storeItem
         && pay.deltaPetCoins == 0 && pay.deltaCoins == 0
  {
  }

  /** Paying by purchase: only without an option and with auto-buy on, and only when the
      wallet covers both prices of the fallback item, which it is then debited by. */
  lemma PayPurchasePath(t: Tables, profileId: string, autoBuy: bool, res: Resolution, wallet: Wallet, now: string)
    requires PaySession(t, profileId, autoBuy, res, wallet, now).Ok?
    requires !PaySession(t, profileId, autoBuy, res, wallet, now).value.usedToken
    ensures var pay := PaySession(t, profileId, autoBuy, res, wallet, now).value;
      var item := res.fallbackStoreItem;
      && res.inventoryOption.None? && autoBuy && pay.item == item
      && pay.wallet.petCoins == wallet.petCoins - item.pricePetCoins >= 0
      && pay.wallet.coins == wallet.coins - item.priceCoins >= 0
      && pay.wallet.profileId == wallet.profileId
      && pay.tables.wallets == t.wallets[profileId := pay.wallet]
      && pay.tables.inventoryItems == t.inventoryItems
      && pay.deltaPetCoins == -item.pricePetCoins && pay.deltaCoins == -item.priceCoins
  {
  }

  /** The commit writes only the pets, the events and the log, and reports the payment. */
  lemma CommitWrites(t: Tables, profileId: string, a: Pet, b: Pet, pay: Payment, babyId: string,
                     eventId: string, logId: string, now: string)
    ensures var step := BreedingCommit(t, profileId, a, b, pay, babyId, eventId, logId, now);
      && step.tables == t.(pets := step.tables.pets, breedingEvents := step.tables.breedingEvents,
                           transactionLogs := step.tables.transactionLogs)
      && step.value.wallet == pay.wallet && step.value.breedingSessionStoreItem == pay.item
      && step.value.usedBreedingSessionItem == pay.usedToken
      && step.value.purchasedBreedingSession == !pay.usedToken
      && step.value.transactionLog.deltaPetCoins == pay.deltaPetCoins
      && step.value.transactionLog.deltaCoins == pay.deltaCoins
  {
  }

  /** The writes after the payment, for parents found at positions `ka` and `kb`. */
  lemma CommitRecords(t: Tables, profileId: string, a: Pet, b: Pet, pay: Payment, babyId: string,
                      eventId: string, logId: string, now: string, ka: nat, kb: nat)
    requires UniquePetIds(t.pets)
    requires ka < |t.pets| && kb < |t.pets| && ka != kb && t.pets[ka] == a && t.pets[kb] == b
    ensures var step := BreedingCommit(t, profileId, a, b, pay, babyId, eventId, logId, now);
      && step.tables.pets == t.pets[ka := step.value.parentA][kb := step.value.parentB] + [step.value.babyPet]
      && step.tables.breedingEvents == t.breedingEvents + [step.value.breedingEvent]
      && step.tables.transactionLogs == t.transactionLogs + [step.value.transactionLog]
      && step.tables == t.(pets := step.tables.pets, breedingEvents := step.tables.breedingEvents,
                           transactionLogs := step.tables.transactionLogs)
  {
    var step := BreedingCommit(t, profileId, a, b, pay, babyId, eventId, logId, now);
    PutStoredPet(t.pets, ka, step.value.parentA);
    PutStoredPet(t.pets[ka := step.value.parentA], kb, step.value.parentB);
  }

  /** The parents the writes report are the ones given, with one more breeding. */
  lemma CommitParents(t: Tables, profileId: string, a: Pet, b: Pet, pay: Payment, babyId: string,
                      eventId: string, logId: string, now: string)
    ensures var result := BreedingCommit(t, profileId, a, b, pay, babyId, eventId, logId, now).value;
      && result.parentA == a.(breedCount := a.breedCount + 1, updatedAt := now)
      && result.parentB == b.(breedCount := b.breedCount + 1, updatedAt := now)
  {
  }

  /** The writes after the payment keep every table invariant when the drawn ids are fresh. */
  lemma CommitKeepsValid(t: Tables, profileId: string, a: Pet, b: Pet, pay: Payment, babyId: string,
                         eventId: string, logId: string, now: string, ka: nat, kb: nat)
    requires ValidTables(t)
    requires ka < |t.pets| && kb < |t.pets| && ka != kb && t.pets[ka] == a && t.pets[kb] == b
    requires babyId !in PetIds(t.pets) && eventId !in EventIds(t.breedingEvents)
    requires logId !in LogIds(t.transactionLogs)
    ensures ValidTables(BreedingCommit(t, profileId, a, b, pay, babyId, eventId, logId, now).tables)
  {
    var step := BreedingCommit(t, profileId, a, b, pay, babyId, eventId, logId, now);
    CommitRecords(t, profileId, a, b, pay, babyId, eventId, logId, now, ka, kb);
    PutStoredPet(t.pets, ka, step.value.parentA);
    PutStoredPet(t.pets[ka := step.value.parentA], kb, step.value.parentB);
    Pets.AppendPet(t.pets[ka := step.value.parentA][kb := step.value.parentB], step.value.babyPet);
    AppendEventKeepsIds(t.breedingEvents, step.value.breedingEvent);
    AppendLogKeepsIds(t.transactionLogs, step.value.transactionLog);
  }

  /** A successful call uses a token exactly when the profile holds one. */
  lemma BreedingPathChoice(t: Tables, input: RunBreedingInput, babyId: string, eventId: string,
                           logId: string, now: string)
    requires UniqueInventoryKeys(t.inventoryItems)
    requires RunBreedingOutcome(t, input, babyId, eventId, logId, now).Ok?
    ensures var result := RunBreedingOutcome(t, input, babyId, eventId, logId, now).value.value;
      && (result.usedBreedingSessionItem <==> HasToken(t, input.profileId))
      && result.purchasedBreedingSession == !result.usedBreedingSessionItem
  {
    OutcomeOfPlan(t, input, babyId, eventId, logId, now);
    PlanFacts(t, input, now);
    var pid := input.profileId;
    var res := ResolveBreedingSessionOption(t, pid).value;
    var ensured := t.(wallets := Wallets.EnsureWallet(t.wallets, pid, 0, 0, now));
    var wallet := Wallets.WalletOf(t.wallets, pid, now);
    ResolveTokenExists(t, pid);
    if PaySession(ensured, pid, input.autoBuySessionIfNeeded, res, wallet, now).value.usedToken {
      PayTokenPath(ensured, pid, input.autoBuySessionIfNeeded, res, wallet, now);
    } else {
      PayPurchasePath(ensured, pid, input.autoBuySessionIfNeeded, res, wallet, now);
    }
  }

  /** The payment keeps every table invariant, given a wallet of the profile and a token row
      taken from the inventory. */
  lemma PayKeepsValid(t: Tables, profileId: string, autoBuy: bool, res: Resolution, wallet: Wallet, now: string)
    requires ValidTables(t)
    requires wallet.profileId == profileId
    requires res.inventoryOption.Some? && res.inventoryOption.value.inventoryItem.Some? ==>
               res.inventoryOption.value.inventoryItem.value in t.inventoryItems
    requires PaySession(t, profileId, autoBuy, res, wallet, now).Ok?
    ensures ValidTables(PaySession(t, profileId, autoBuy, res, wallet, now).value.tables)
  {
    var pay := PaySession(t, profileId, autoBuy, res, wallet, now).value;
    PayWritesWalletsAndInventory(t, profileId, autoBuy, res, wallet, now);
    if pay.usedToken {
      PayTokenPath(t, profileId, autoBuy, res, wallet, now);
      var rows := t.inventoryItems;
      var row := res.inventoryOption.value.inventoryItem.value;
      var k :| 0 <= k < |rows| && rows[k] == row;
      var updated := row.(quantity := row.quantity - 1, updatedAt := now);
      PutStoredRow(rows, k, updated);
      ReplaceRowKeepsKeys(rows, k, updated);
    } else {
      PayPurchasePath(t, profileId, autoBuy, res, wallet, now);
    }
  }

  /** The payment of a plan keeps every table invariant. */
  lemma PlanKeepsValid(t: Tables, input: RunBreedingInput, now: string)
    requires ValidTables(t)
    requires BreedingPlan(t, input, now).Ok?
    ensures ValidTables(BreedingPlan(t, input, now).value.payment.tables)
  {
    PlanFacts(t, input, now);
    var pid := input.profileId;
    var res := ResolveBreedingSessionOption(t, pid).value;
    Wallets.WalletWritesKeepKeying(t.wallets, pid, 0, 0, now);
    if res.inventoryOption.Some? {
      ResolveTokenIsFirst(t, pid);
    }
    PayKeepsValid(t.(wallets := Wallets.EnsureWallet(t.wallets, pid, 0, 0, now)), pid,
                  input.autoBuySessionIfNeeded, res, Wallets.WalletOf(t.wallets, pid, now), now);
  }

  /** A successful call keeps every table invariant when the drawn ids are fresh. */
  lemma BreedingKeepsValid(t: Tables, input: RunBreedingInput, babyId: string, eventId: string,
                           logId: string, now: string)
    requires ValidTables(t)
    requires babyId !in PetIds(t.pets) && eventId !in EventIds(t.breedingEvents)
    requires logId !in LogIds(t.transactionLogs)
    requires RunBreedingOutcome(t, input, babyId, eventId, logId, now).Ok?
    ensures ValidTables(RunBreedingOutcome(t, input, babyId, eventId, logId, now).value.tables)
  {
    OutcomeOfPlan(t, input, babyId, eventId, logId, now);
    PlanFacts(t, input, now);
    PlanKeepsValid(t, input, now);
    var plan := BreedingPlan(t, input, now).value;
    var pid := input.profileId;
    PayWritesWalletsAndInventory(t.(wallets := Wallets.EnsureWallet(t.wallets, pid, 0, 0, now)), pid,
                                 input.autoBuySessionIfNeeded, ResolveBreedingSessionOption(t, pid).value,
                                 Wallets.WalletOf(t.wallets, pid, now), now);
    var ka := FindPet(t.pets, input.parentAId).value;
    var kb := FindPet(t.pets, input.parentBId).value;
    CommitKeepsValid(plan.payment.tables, pid, plan.parentA, plan.parentB, plan.payment,
                     babyId, eventId, logId, now, ka, kb);
  }

  /** The token a plan uses is the first session item, cheapest first, that the profile
      has in stock, and its row is the profile's row for it. */
  lemma PlanTokenChoice(t: Tables, input: RunBreedingInput, now: string)
    requires UniqueInventoryKeys(t.inventoryItems)
    requires BreedingPlan(t, input, now).Ok?
    requires BreedingPlan(t, input, now).value.payment.usedToken
    ensures var pay := BreedingPlan(t, input, now).value.payment;
      var items := SessionItems(t.storeItems);
      var rows := t.inventoryItems;
      var option := ResolveBreedingSessionOption(t, input.profileId).value.inventoryOption;
      && (exists i :: 0 <= i < |items| && items[i] == pay.item
            && StockOf(rows, input.profileId, items[i].id) > 0
            && forall j :: 0 <= j < i ==> StockOf(rows, input.profileId, items[j].id) <= 0)
      && FindInventoryRow(rows, input.profileId, pay.item.id).Some?
      && option.Some? && option.value.storeItem == pay.item
      && option.value.inventoryItem == Some(rows[FindInventoryRow(rows, input.profileId, pay.item.id).value])
  {
    PlanFacts(t, input, now);
    var pid := input.profileId;
    var res := ResolveBreedingSessionOption(t, pid).value;
    PayTokenPath(t.(wallets := Wallets.EnsureWallet(t.wallets, pid, 0, 0, now)), pid, input.autoBuySessionIfNeeded,
                 res, Wallets.WalletOf(t.wallets, pid, now), now);
    ResolveTokenIsFirst(t, pid);
  }

  /** The token's row loses exactly one unit; the wallet is only ensured and no money moves. */
  lemma PlanTokenFacts(t: Tables, input: RunBreedingInput, now: string)
    requires UniqueInventoryKeys(t.inventoryItems)
    requires BreedingPlan(t, input, now).Ok?
    requires BreedingPlan(t, input, now).value.payment.usedToken
    ensures var pay := BreedingPlan(t, input, now).value.payment;
      var rows := t.inventoryItems;
      var pid := input.profileId;
      && FindInventoryRow(rows, pid, pay.item.id).Some?
      && var k := FindInventoryRow(rows, pid, pay.item.id).value;
         && pay.tables.inventoryItems == rows[k := rows[k].(quantity := rows[k].quantity - 1, updatedAt := now)]
         && pay.tables.wallets == Wallets.EnsureWallet(t.wallets, pid, 0, 0, now)
         && pay.wallet == Wallets.WalletOf(t.wallets, pid, now)
         && pay.deltaPetCoins == 0 && pay.deltaCoins == 0
  {
    PlanFacts(t, input, now);
    PlanTokenChoice(t, input, now);
    var pid := input.profileId;
    var res := ResolveBreedingSessionOption(t, pid).value;
    PayTokenPath(t.(wallets := Wallets.EnsureWallet(t.wallets, pid, 0, 0, now)), pid, input.autoBuySessionIfNeeded,
                 res, Wallets.WalletOf(t.wallets, pid, now), now);
    var rows := t.inventoryItems;
    var k := FindInventoryRow(rows, pid, res.inventoryOption.value.storeItem.id).value;
    PutStoredRow(rows, k, rows[k].(quantity := rows[k].quantity - 1, updatedAt := now));
  }

  /** The token path of a successful call, as its plan makes it. */
  lemma BreedingTokenPath(t: Tables, input: RunBreedingInput, babyId: string, eventId: string,
                          logId: string, now: string)
    requires UniqueInventoryKeys(t.inventoryItems)
    requires RunBreedingOutcome(t, input, babyId, eventId, logId, now).Ok?
    requires RunBreedingOutcome(t, input, babyId, eventId, logId, now).value.value.usedBreedingSessionItem
    ensures var step := RunBreedingOutcome(t, input, babyId, eventId, logId, now).value;
      var item := step.value.breedingSessionStoreItem;
      var items := SessionItems(t.storeItems);
      var rows := t.inventoryItems;
      var pid := input.profileId;
      && (exists i :: 0 <= i < |items| && items[i] == item
            && StockOf(rows, pid, items[i].id) > 0
            && forall j :: 0 <= j < i ==> StockOf(rows, pid, items[j].id) <= 0)
      && FindInventoryRow(rows, pid, item.id).Some?
      && var k := FindInventoryRow(rows, pid, item.id).value;
         && step.tables.inventoryItems == rows[k := rows[k].(quantity := rows[k].quantity - 1, updatedAt := now)]
         && step.tables.wallets == Wallets.EnsureWallet(t.wallets, pid, 0, 0, now)
         && step.value.wallet == Wallets.WalletOf(t.wallets, pid, now)
         && step.value.transactionLog.deltaPetCoins == 0 && step.value.transactionLog.deltaCoins == 0
  {
    OutcomeOfPlan(t, input, babyId, eventId, logId, now);
    var plan := BreedingPlan(t, input, now).value;
    CommitWrites(plan.payment.tables, input.profileId, plan.parentA, plan.parentB, plan.payment,
                 babyId, eventId, logId, now);
    PlanTokenChoice(t, input, now);
    PlanTokenFacts(t, input, now);
  }

  /** The plan of the purchase path: without a token and with auto-buy on, the cheapest
      session item is bought; the wallet is debited by exactly its prices and stays
      non-negative, and the inventory is untouched. */
  lemma PlanPurchaseFacts(t: Tables, input: RunBreedingInput, now: string)
    requires BreedingPlan(t, input, now).Ok?
    requires !BreedingPlan(t, input, now).value.payment.usedToken
    ensures var pay := BreedingPlan(t, input, now).value.payment;
      var before := Wallets.WalletOf(t.wallets, input.profileId, now);
      && input.autoBuySessionIfNeeded
      && pay.item == SessionItems(t.storeItems)[0] && pay.item in t.storeItems && IsBreedingSessionStoreItem(pay.item)
      && (forall x :: x in t.storeItems && IsBreedingSessionStoreItem(x) ==> SessionLe(pay.item, x))
      && pay.wallet.petCoins == before.petCoins - pay.item.pricePetCoins >= 0
      && pay.wallet.coins == before.coins - pay.item.priceCoins >= 0
      && pay.tables.wallets == t.wallets[input.profileId := pay.wallet]
      && pay.tables.inventoryItems == t.inventoryItems
      && pay.deltaPetCoins == -pay.item.pricePetCoins && pay.deltaCoins == -pay.item.priceCoins
  {
    PlanFacts(t, input, now);
    var pid := input.profileId;
    var res := ResolveBreedingSessionOption(t, pid).value;
    var ensured := t.(wallets := Wallets.EnsureWallet(t.wallets, pid, 0, 0, now));
    PayPurchasePath(ensured, pid, input.autoBuySessionIfNeeded, res, Wallets.WalletOf(t.wallets, pid, now), now);
    ResolveFallback(t, pid);
  }

  /** The purchase path of a successful call; the log records the debit. */
  lemma BreedingPurchasePath(t: Tables, input: RunBreedingInput, babyId: string, eventId: string,
                             logId: string, now: string)
    requires RunBreedingOutcome(t, input, babyId, eventId, logId, now).Ok?
    requires !RunBreedingOutcome(t, input, babyId, eventId, logId, now).value.value.usedBreedingSessionItem
    ensures var step := RunBreedingOutcome(t, input, babyId, eventId, logId, now).value;
      var item := step.value.breedingSessionStoreItem;
      var before := Wallets.WalletOf(t.wallets, input.profileId, now);
      var after := step.value.wallet;
      && input.autoBuySessionIfNeeded
      && item == SessionItems(t.storeItems)[0] && item in t.storeItems && IsBreedingSessionStoreItem(item)
      && (forall x :: x in t.storeItems && IsBreedingSessionStoreItem(x) ==> SessionLe(item, x))
      && after.petCoins == before.petCoins - item.pricePetCoins && after.petCoins >= 0
      && after.coins == before.coins - item.priceCoins && after.coins >= 0
      && step.tables.wallets == t.wallets[input.profileId := after]
      && step.tables.inventoryItems == t.inventoryItems
      && step.value.transactionLog.deltaPetCoins == after.petCoins - before.petCoins
      && step.value.transactionLog.deltaCoins == after.coins - before.coins
  {
    OutcomeOfPlan(t, input, babyId, eventId, logId, now);
    var plan := BreedingPlan(t, input, now).value;
    CommitWrites(plan.payment.tables, input.profileId, plan.parentA, plan.parentB, plan.payment,
                 babyId, eventId, logId, now);
    PlanPurchaseFacts(t, input, now);
  }

  /** The parents of a plan are the pets found under the two ids, at distinct positions,
      both of the profile and of one species unless that is waived; the payment leaves the
      pets, the catalog, the profiles, the events and the log as they were. */
  lemma PlanParents(t: Tables, input: RunBreedingInput, now: string)
    requires BreedingPlan(t, input, now).Ok?
    ensures var plan := BreedingPlan(t, input, now).value;
      var ka := FindPet(t.pets, input.parentAId);
      var kb := FindPet(t.pets, input.parentBId);
      && ka.Some? && kb.Some? && ka.value != kb.value
      && t.pets[ka.value] == plan.parentA && t.pets[kb.value] == plan.parentB
      && plan.parentA.profileId == input.profileId && plan.parentB.profileId == input.profileId
      && (input.allowCrossSpecies || plan.parentA.species == plan.parentB.species)
      && plan.payment.tables.pets == t.pets && plan.payment.tables.profiles == t.profiles
      && plan.payment.tables.storeItems == t.storeItems
      && plan.payment.tables.breedingEvents == t.breedingEvents
      && plan.payment.tables.transactionLogs == t.transactionLogs
  {
    PlanFacts(t, input, now);
    var pid := input.profileId;
    PayWritesWalletsAndInventory(t.(wallets := Wallets.EnsureWallet(t.wallets, pid, 0, 0, now)), pid,
                                 input.autoBuySessionIfNeeded, ResolveBreedingSessionOption(t, pid).value,
                                 Wallets.WalletOf(t.wallets, pid, now), now);
  }

  /** Both parents of a successful call are pets of the profile, found under the two ids at
      distinct positions, and of one species unless that is waived. */
  lemma BreedingParents(t: Tables, input: RunBreedingInput, babyId: string, eventId: string,
                        logId: string, now: string)
    requires RunBreedingOutcome(t, input, babyId, eventId, logId, now).Ok?
    ensures var ka := FindPet(t.pets, input.parentAId);
      var kb := FindPet(t.pets, input.parentBId);
      && ka.Some? && kb.Some? && ka.value != kb.value
      && t.pets[ka.value].profileId == input.profileId && t.pets[kb.value].profileId == input.profileId
      && (input.allowCrossSpecies || t.pets[ka.value].species == t.pets[kb.value].species)
  {
    OutcomeOfPlan(t, input, babyId, eventId, logId, now);
    PlanParents(t, input, now);
  }

  /** Each parent is returned with one more breeding. */
  lemma BreedingParentsUpdated(t: Tables, input: RunBreedingInput, babyId: string, eventId: string,
                               logId: string, now: string)
    requires RunBreedingOutcome(t, input, babyId, eventId, logId, now).Ok?
    requires FindPet(t.pets, input.parentAId).Some? && FindPet(t.pets, input.parentBId).Some?
    ensures var result := RunBreedingOutcome(t, input, babyId, eventId, logId, now).value.value;
      var a := t.pets[FindPet(t.pets, input.parentAId).value];
      var b := t.pets[FindPet(t.pets, input.parentBId).value];
      && result.parentA == a.(breedCount := a.breedCount + 1, updatedAt := now)
      && result.parentB == b.(breedCount := b.breedCount + 1, updatedAt := now)
  {
    OutcomeOfPlan(t, input, babyId, eventId, logId, now);
    PlanParents(t, input, now);
    var plan := BreedingPlan(t, input, now).value;
    CommitParents(plan.payment.tables, input.profileId, plan.parentA, plan.parentB, plan.payment,
                  babyId, eventId, logId, now);
  }

  /** The parents are put back in place, and the baby is added after them. */
  lemma BreedingPetsTable(t: Tables, input: RunBreedingInput, babyId: string, eventId: string,
                          logId: string, now: string)
    requires UniquePetIds(t.pets)
    requires RunBreedingOutcome(t, input, babyId, eventId, logId, now).Ok?
    requires FindPet(t.pets, input.parentAId).Some? && FindPet(t.pets, input.parentBId).Some?
    ensures var step := RunBreedingOutcome(t, input, babyId, eventId, logId, now).value;
      var ka := FindPet(t.pets, input.parentAId).value;
      var kb := FindPet(t.pets, input.parentBId).value;
      step.tables.pets == t.pets[ka := step.value.parentA][kb := step.value.parentB] + [step.value.babyPet]
  {
    OutcomeOfPlan(t, input, babyId, eventId, logId, now);
    PlanParents(t, input, now);
    var plan := BreedingPlan(t, input, now).value;
    CommitRecords(plan.payment.tables, input.profileId, plan.parentA, plan.parentB, plan.payment,
                  babyId, eventId, logId, now, FindPet(t.pets, input.parentAId).value,
                  FindPet(t.pets, input.parentBId).value);
  }

  /** Every successful call adds one baby named "Baby of A + B", with the note "Bred from
      A + B.", no breedings, unknown gender and no photo, of the parents' species (or
      mixed) and with their tags, created and updated now; one event naming the parents and
      the baby; one `breeding` entry. Profiles and the catalog are untouched. */
  lemma BreedingRecords(t: Tables, input: RunBreedingInput, babyId: string, eventId: string,
                        logId: string, now: string)
    requires RunBreedingOutcome(t, input, babyId, eventId, logId, now).Ok?
    ensures var step := RunBreedingOutcome(t, input, babyId, eventId, logId, now).value;
      var result := step.value;
      var a := GetParentPet(t.pets, input.profileId, input.parentAId).value;
      var b := GetParentPet(t.pets, input.profileId, input.parentBId).value;
      && result.babyPet.id == babyId && result.babyPet.profileId == input.profileId
      && result.babyPet.breedCount == 0 && result.babyPet.gender == UnknownGender
      && result.babyPet.photoId.None? && !result.babyPet.wasWild
      && result.babyPet.species == GetBabySpecies(a, b) && result.babyPet.tags == GetBabyTags(a, b)
      && result.babyPet.name == "Baby of " + a.name + " + " + b.name
      && result.babyPet.notes == Some("Bred from " + a.name + " + " + b.name + ".")
      && result.babyPet.createdAt == result.babyPet.updatedAt == now
      && result.breedingEvent == BreedingEvent(eventId, input.profileId, a.id, b.id, babyId,
                                               result.usedBreedingSessionItem, now)
      && step.tables.breedingEvents == t.breedingEvents + [result.breedingEvent]
      && result.transactionLog.kind == BreedingKind && result.transactionLog.profileId == input.profileId
      && step.tables.transactionLogs == t.transactionLogs + [result.transactionLog]
      && step.tables.profiles == t.profiles && step.tables.storeItems == t.storeItems
  {
    OutcomeOfPlan(t, input, babyId, eventId, logId, now);
    PlanFacts(t, input, now);
    PlanParents(t, input, now);
    var plan := BreedingPlan(t, input, now).value;
    CommitWrites(plan.payment.tables, input.profileId, plan.parentA, plan.parentB, plan.payment,
                 babyId, eventId, logId, now);
  }

  /** A free fallback item is bought, yet with no money moved the log describes it as a
      token used from the inventory. */
  lemma FreeSessionLoggedAsInventoryUse(t: Tables, input: RunBreedingInput, babyId: string, eventId: string,
                                        logId: string, now: string)
    requires RunBreedingOutcome(t, input, babyId, eventId, logId, now).Ok?
    requires var result := RunBreedingOutcome(t, input, babyId, eventId, logId, now).value.value;
      && result.purchasedBreedingSession
      && result.breedingSessionStoreItem.pricePetCoins == 0 && result.breedingSessionStoreItem.priceCoins == 0
    ensures var result := RunBreedingOutcome(t, input, babyId, eventId, logId, now).value.value;
      result.transactionLog.notes
      == Trim(BreedingNote(GetParentPet(t.pets, input.profileId, input.parentAId).value.name,
                           GetParentPet(t.pets, input.profileId, input.parentBId).value.name,
                           result.breedingSessionStoreItem.name, true))
  {
    OutcomeOfPlan(t, input, babyId, eventId, logId, now);
    PlanFacts(t, input, now);
    var plan := BreedingPlan(t, input, now).value;
    var pid := input.profileId;
    var res := ResolveBreedingSessionOption(t, pid).value;
    var ensured := t.(wallets := Wallets.EnsureWallet(t.wallets, pid, 0, 0, now));
    var wallet := Wallets.WalletOf(t.wallets, pid, now);
    var autoBuy := input.autoBuySessionIfNeeded;
    CommitWrites(plan.payment.tables, pid, plan.parentA, plan.parentB, plan.payment, babyId, eventId, logId, now);
    PayPurchasePath(ensured, pid, autoBuy, res, wallet, now);
  }

  class BreedingService {
    const db: Database

    constructor (db: Database)
      ensures this.db == db
    {
      this.db := db;
    }

    method RunBreeding(input: RunBreedingInput, babyId: string, eventId: string, logId: string, now: string)
      returns (r: Result<RunBreedingResult>)
      requires db.Valid()
      requires babyId !in PetIds(db.pets) && eventId !in EventIds(db.breedingEvents)
      requires logId !in LogIds(db.transactionLogs)
      modifies db
      ensures db.Valid()
      ensures Committed(RunBreedingOutcome(old(db.Snapshot()), input, babyId, eventId, logId, now),
                        old(db.Snapshot()), db.Snapshot(), r)
    {
      if input.parentAId == input.parentBId {
        return Err(InvalidInput);
      }
      var parentA := GetParentPet(db.pets, input.profileId, input.parentAId);
      if parentA.Err? {
        return Err(parentA.code);
      }
      var parentB := GetParentPet(db.pets, input.profileId, input.parentBId);
      if parentB.Err? {
        return Err(parentB.code);
      }
      if !input.allowCrossSpecies && parentA.value.species != parentB.value.species {
        return Err(InvalidInput);
      }
      var resolution := ResolveBreedingSessionOption(db.Snapshot(), input.profileId);
      if resolution.Err? {
        return Err(resolution.code);
      }
      if resolution.value.inventoryOption.Some? {
        ResolveTokenIsFirst(db.Snapshot(), input.profileId);
      }
      OutcomeAfterChecks(db.Snapshot(), input, babyId, eventId, logId, now);
      r := PayAndCommit(input.profileId, input.autoBuySessionIfNeeded, parentA.value, parentB.value,
                        resolution.value, babyId, eventId, logId, now);
    }

    /** The transaction of `runBreeding` once the parents and the session options are read:
        the wallet is ensured, the session paid for, and the records written; an error after
        the wallet is ensured rolls every table back. */
    method PayAndCommit(profileId: string, autoBuy: bool, parentA: Pet, parentB: Pet, resolution: Resolution,
                        babyId: string, eventId: string, logId: string, now: string)
      returns (r: Result<RunBreedingResult>)
      requires db.Valid()
      requires babyId !in PetIds(db.pets) && eventId !in EventIds(db.breedingEvents)
      requires logId !in LogIds(db.transactionLogs)
      requires parentA in db.pets && parentB in db.pets && parentA.id != parentB.id
      requires resolution.inventoryOption.Some? && resolution.inventoryOption.value.inventoryItem.Some? ==>
                 resolution.inventoryOption.value.inventoryItem.value in db.inventoryItems
      modifies db
      ensures db.Valid()
      ensures Committed(SessionOutcome(old(db.Snapshot()), profileId, autoBuy, parentA, parentB, resolution,
                                       babyId, eventId, logId, now),
                        old(db.Snapshot()), db.Snapshot(), r)
    {
      var saved := db.Snapshot();
      var wallet := Economy.EnsureWallet(db, profileId, now);
      var paid := PayForSession(profileId, autoBuy, resolution, wallet, now);
      if paid.Err? {
        db.Rollback(saved);
        return Err(paid.code);
      }
      var pay := paid.value;
      SessionKeepsValid(saved, profileId, autoBuy, parentA, parentB, resolution, babyId, eventId, logId, now);
      var result := CommitBreeding(profileId, parentA, parentB, pay.wallet, pay.usedToken, !pay.usedToken,
                                   pay.item, pay.deltaPetCoins, pay.deltaCoins, babyId, eventId, logId, now);
      r := Ok(result);
    }

    /** The payment inside the breeding transaction, once the wallet is ensured: the token
        is taken from its row, or the fallback item is paid for. A failed check writes
        nothing; the caller rolls the transaction back. */
    method PayForSession(profileId: string, autoBuy: bool, resolution: Resolution, wallet: Wallet, now: string)
      returns (r: Result<Payment>)
      modifies db
      ensures r == PaySession(old(db.Snapshot()), profileId, autoBuy, resolution, wallet, now)
      ensures r.Ok? ==> db.Snapshot() == r.value.tables
      ensures r.Err? ==> db.Snapshot() == old(db.Snapshot())
    {
      if resolution.inventoryOption.Some? {
        var option := resolution.inventoryOption.value;
        if option.inventoryItem.None? || option.inventoryItem.value.quantity <= 0 {
          return Err(NotFound);
        }
        var inventoryItem := option.inventoryItem.value;
        var updatedInventory := inventoryItem.(quantity := Max(0, inventoryItem.quantity - 1), updatedAt := now);
        db.inventoryItems := PutInventoryRow(db.inventoryItems, updatedInventory);
        r := Ok(Payment(db.Snapshot(), wallet, true, option.storeItem, 0, 0));
      } else {
        if !autoBuy {
          return Err(BreedingSessionRequired);
        }
        var fallbackStoreItem := resolution.fallbackStoreItem;
        if wallet.petCoins < fallbackStoreItem.pricePetCoins || wallet.coins < fallbackStoreItem.priceCoins {
          return Err(InsufficientFunds);
        }
        var updatedWallet := wallet.(petCoins := wallet.petCoins - fallbackStoreItem.pricePetCoins,
                                     coins := wallet.coins - fallbackStoreItem.priceCoins, updatedAt := now);
        db.wallets := db.wallets[profileId := updatedWallet];
        r := Ok(Payment(db.Snapshot(), updatedWallet, false, fallbackStoreItem,
                        -fallbackStoreItem.pricePetCoins, -fallbackStoreItem.priceCoins));
      }
    }

    /** The writes of the breeding transaction after the payment. */
    method CommitBreeding(profileId: string, parentA: Pet, parentB: Pet, wallet: Wallet,
                          usedBreedingSessionItem: bool, purchasedBreedingSession: bool,
                          breedingSessionStoreItem: StoreItem, deltaPetCoins: int, deltaCoins: int,
                          babyId: string, eventId: string, logId: string, now: string)
      returns (result: RunBreedingResult)
      requires purchasedBreedingSession == !usedBreedingSessionItem
      modifies db
      ensures Step(db.Snapshot(), result)
           == BreedingCommit(old(db.Snapshot()), profileId, parentA, parentB,
                             Payment(old(db.Snapshot()), wallet, usedBreedingSessionItem, breedingSessionStoreItem,
                                     deltaPetCoins, deltaCoins),
                             babyId, eventId, logId, now)
    {
      var updatedParentA := Bred(parentA, now);
      var updatedParentB := Bred(parentB, now);
      var babyPet := BabyPet(profileId, parentA, parentB, babyId, now);
      var breedingEvent := CreateBreedingEvent(eventId, profileId, parentA.id, parentB.id, babyPet.id,
                                               usedBreedingSessionItem, now);
      var notes := BreedingNote(parentA.name, parentB.name, breedingSessionStoreItem.name,
                                deltaPetCoins == 0 && deltaCoins == 0);
      var transactionLog := CreateBreedingTransaction(logId, profileId, deltaPetCoins, deltaCoins, notes, now);
      // the pets table takes both parents back, then the baby; the event and the log follow
      var pets := PutPet(PutPet(db.pets, updatedParentA), updatedParentB) + [babyPet];
      var events := db.breedingEvents + [breedingEvent];
      var logs := db.transactionLogs + [transactionLog];
      db.WriteBreedingRecords(pets, events, logs);
      result := RunBreedingResult(updatedParentA, updatedParentB, babyPet, breedingEvent, transactionLog, wallet,
                                  usedBreedingSessionItem, purchasedBreedingSession, breedingSessionStoreItem);
    }
  }
}
