/** First-run seeding (src/db/seed.ts): the default profile with an empty wallet, and the
    starter catalog, inserted where missing and refreshed for the two breeding items. */
module Seed {
  import opened Collections
  import opened Text
  import opened Models
  import opened Store
  import Wallets
  import Economy

  const DefaultProfileName: string := "Family"
  const BasicSessionItemId: string := "breeding-session-basic"
  /** `EXTRA_BREED_CARD_ITEM_ID`; its module is not part of this model, so the value is a
      stand-in that differs from every other starter id. */
  const ExtraBreedCardItemId: string := "extra-breed-card"

  /** A catalog entry before `put` stamps its timestamps. */
  datatype SeedItem = SeedItem(
    id: string,
    itemType: StoreItemType,
    name: string,
    description: string,
    speciesRestriction: Option<Species>,
    pricePetCoins: int,
    priceCoins: int,
    photoId: Option<string>,
    tags: seq<string>,
    isActive: bool)

  /** `storeRepo.put(item)` stores the item with both timestamps set to the time of the put. */
  function Stamped(item: SeedItem, now: string): StoreItem {
    StoreItem(item.id, item.itemType, item.name, item.description, item.speciesRestriction,
              item.pricePetCoins, item.priceCoins, item.photoId, item.tags, item.isActive, now, now)
  }

  const StarterStoreItems: seq<SeedItem> := [
    SeedItem("breeding-session-basic", BreedingSession, "Breeding Card",
             "Used in breeding. Each child costs 10 Coins.", None, 0, 10, None, ["breedingSession"], true),
    SeedItem(ExtraBreedCardItemId, BreedingSession, "Extra Breed Card",
             "Required when breeding with a pet that already has 5 or more breeds.", None, 0, 15, None,
             ["breedingSession", "extraBreedCard"], true),
    SeedItem("pet-card-cat", PetCard, "Cat Pet Card", "Adopt a cat card into your collection.", Some(Cat),
             25, 0, None, ["pet", "cat"], true),
    SeedItem("pet-card-dog", PetCard, "Dog Pet Card", "Adopt a dog card into your collection.", Some(Dog),
             25, 0, None, ["pet", "dog"], true),
    SeedItem("pet-card-bird", PetCard, "Bird Pet Card", "Adopt a bird card into your collection.", Some(Bird),
             20, 0, None, ["pet", "bird"], true),
    SeedItem("toy-generic", Supply, "Toy (Any Species)", "A fun toy for all pets.", None, 0, 5, None,
             ["toy"], true),
    SeedItem("toy-cat", Supply, "Cat Toy", "A toy made for cats.", Some(Cat), 0, 6, None, ["toy", "cat"], true),
    SeedItem("toy-dog", Supply, "Dog Toy", "A toy made for dogs.", Some(Dog), 0, 6, None, ["toy", "dog"], true),
    SeedItem("toy-bird", Supply, "Bird Toy", "A toy made for birds.", Some(Bird), 0, 6, None,
             ["toy", "bird"], true),
    SeedItem("dish-food-cat", Supply, "Cat Food Dish", "Food dish for cats.", Some(Cat), 0, 4, None,
             ["foodDish", "cat"], true),
    SeedItem("dish-water-cat", Supply, "Cat Water Dish", "Water dish for cats.", Some(Cat), 0, 4, None,
             ["waterDish", "cat"], true),
    SeedItem("dish-food-dog", Supply, "Dog Food Dish", "Food dish for dogs.", Some(Dog), 0, 4, None,
             ["foodDish", "dog"], true),
    SeedItem("dish-water-dog", Supply, "Dog Water Dish", "Water dish for dogs.", Some(Dog), 0, 4, None,
             ["waterDish", "dog"], true),
    SeedItem("cat-litter-box", Supply, "Cat Litter Box", "Litter box for cat pets.", Some(Cat), 0, 8, None,
             ["litterBox", "cat"], true),
    SeedItem("cat-litter-scooper", Supply, "Cat Scooper", "Scooper for cleaning the litter box.", Some(Cat),
             0, 3, None, ["scooper", "cat"], true),
    SeedItem("cat-litter-bag", Supply, "Cat Litter", "Bag of litter for cat habitats.", Some(Cat), 0, 5, None,
             ["litter", "cat"], true)
  ]

  function StarterIds(starters: seq<SeedItem>): set<string> {
    set s | s in starters :: s.id
  }

  ghost predicate DistinctIds(starters: seq<SeedItem>) {
    forall i, j :: 0 <= i < j < |starters| ==> starters[i].id != starters[j].id
  }

  /** The two breeding items, which a later seed refreshes when their text has changed. */
  predicate IsRefreshed(id: string) {
    id == BasicSessionItemId || id == ExtraBreedCardItemId
  }

  /** The catalog after seeding, and how many entries were inserted. */
  datatype Seeded = Seeded(items: seq<StoreItem>, inserted: nat)

  /** One pass of the loop: insert a missing entry and count it; refresh a breeding item
      whose name or description differs; keep anything else as it is. */
  function SeedOne(acc: Seeded, item: SeedItem, now: string): Seeded {
    match FindStoreItem(acc.items, item.id)
    case None => Seeded(Economy.PutStoreItem(acc.items, Stamped(item, now)), acc.inserted + 1)
    case Some(k) =>
      var existing := acc.items[k];
      if IsRefreshed(item.id) && (existing.name != item.name || existing.description != item.description)
      then Seeded(Economy.PutStoreItem(acc.items, Stamped(item, now)), acc.inserted)
      else acc
  }

  /** The loop over the starter entries, in order. */
  function SeedCatalog(items: seq<StoreItem>, starters: seq<SeedItem>, now: string): Seeded {
    if starters == [] then Seeded(items, 0)
    else SeedOne(SeedCatalog(items, starters[..|starters| - 1], now), starters[|starters| - 1], now)
  }

  datatype SeedResult = SeedResult(profileCreated: bool, storeItemsInserted: nat)

  /** `seedDatabase` over a catalog (the method seeds `StarterStoreItems`). `profileId`
      stands for the id the new profile draws, `now` for the clock. */
  function SeedOutcome(t: Tables, catalog: seq<SeedItem>, profileId: string, now: string): Step<SeedResult> {
    var created := |t.profiles| == 0;
    var withProfile :=
      if created then
        t.(profiles := t.profiles + [Profile(profileId, Trim(DefaultProfileName), now, now)],
           wallets := Wallets.EnsureWallet(t.wallets, profileId, 0, 0, now))
      else t;
    var seeded := SeedCatalog(withProfile.storeItems, catalog, now);
    Step(withProfile.(storeItems := seeded.items), SeedResult(created, seeded.inserted))
  }

  // ----- the starter catalog -----

  /** The starter ids, in catalog order. */
  const StarterIdList: seq<string> := [
      BasicSessionItemId,
      ExtraBreedCardItemId,
      "pet-card-cat",
      "pet-card-dog",
      "pet-card-bird",
      "toy-generic",
      "toy-cat",
      "toy-dog",
      "toy-bird",
      "dish-food-cat",
      "dish-water-cat",
      "dish-food-dog",
      "dish-water-dog",
      "cat-litter-box",
      "cat-litter-scooper",
      "cat-litter-bag"]

  lemma StarterIdListMatches()
    ensures |StarterIdList| == |StarterStoreItems|
    ensures forall i :: 0 <= i < |StarterStoreItems| ==> StarterStoreItems[i].id == StarterIdList[i]
  {
  }

  lemma StarterIdListDistinct()
    ensures forall i, j :: 0 <= i < j < |StarterIdList| ==> StarterIdList[i] != StarterIdList[j]
  {
  }

  lemma StarterIdsDistinct()
    ensures DistinctIds(StarterStoreItems)
  {
    StarterIdListMatches();
    StarterIdListDistinct();
  }

  predicate FollowsPricingRule(s: SeedItem) {
    && (if s.itemType == PetCard then s.priceCoins == 0 else s.pricePetCoins == 0)
    && s.pricePetCoins >= 0 && s.priceCoins >= 0
  }

  /** Every starter entry is priced in one currency only (pet cards in Pet Coins, the rest
      in Coins), and no price is negative. */
  lemma StarterItemsPriced()
    ensures forall i :: 0 <= i < |StarterStoreItems| ==> FollowsPricingRule(StarterStoreItems[i])
  {
  }

  // ----- one pass of the loop -----

  /** The entry stored under a starter id already has the text a seed would refresh it to. */
  predicate Settled(items: seq<StoreItem>, s: SeedItem) {
    match FindStoreItem(items, s.id)
    case None => false
    case Some(k) => !IsRefreshed(s.id) || (items[k].name == s.name && items[k].description == s.description)
  }

  /** With unique ids, looking up a stored item's id finds that item. */
  lemma FoundStoredItem(items: seq<StoreItem>, x: StoreItem)
    requires UniqueStoreItemIds(items) && x in items
    ensures FindStoreItem(items, x.id).Some? && items[FindStoreItem(items, x.id).value] == x
  {
    var j :| 0 <= j < |items| && items[j] == x;
    assert x.id in StoreItemIds(items);
    var k := FindStoreItem(items, x.id).value;
    assert items[k].id == items[j].id;
  }

  /** A pass adds the entry's id, keeps ids unique, and counts the entry when its id was
      missing. */
  lemma SeedOneIds(acc: Seeded, item: SeedItem, now: string)
    requires UniqueStoreItemIds(acc.items)
    ensures var r := SeedOne(acc, item, now);
      && UniqueStoreItemIds(r.items)
      && StoreItemIds(r.items) == StoreItemIds(acc.items) + {item.id}
      && r.inserted == if item.id in StoreItemIds(acc.items) then acc.inserted else acc.inserted + 1
  {
    Economy.PutStoreItemSpec(acc.items, Stamped(item, now));
    match FindStoreItem(acc.items, item.id)
    case None =>
    case Some(k) =>
      assert acc.items[k] in acc.items;
  }

  /** A pass leaves the entry settled, and loses no item under another id and no item that
      is not a breeding item. */
  lemma SeedOneSettles(acc: Seeded, item: SeedItem, now: string)
    requires UniqueStoreItemIds(acc.items)
    ensures var r := SeedOne(acc, item, now).items;
      && Settled(r, item)
      && forall x :: x in acc.items && (x.id != item.id || !IsRefreshed(x.id)) ==> x in r
  {
    var r := SeedOne(acc, item, now).items;
    var stamped := Stamped(item, now);
    Economy.PutStoreItemSpec(acc.items, stamped);
    if r != acc.items {
      FoundStoredItem(r, stamped);
    }
  }

  /** A pass over a settled entry changes nothing. */
  lemma SeedOneSettled(acc: Seeded, item: SeedItem, now: string)
    requires Settled(acc.items, item)
    ensures SeedOne(acc, item, now) == acc
  {
  }

  // ----- the loop -----

  lemma SeedCatalogStep(items: seq<StoreItem>, starters: seq<SeedItem>, i: nat, now: string)
    requires i < |starters|
    ensures SeedCatalog(items, starters[..i + 1], now)
         == SeedOne(SeedCatalog(items, starters[..i], now), starters[i], now)
  {
    assert starters[..i + 1][..i] == starters[..i];
  }

  lemma InitOrLast(starters: seq<SeedItem>, s: SeedItem)
    requires s in starters
    ensures s == starters[|starters| - 1] || s in starters[..|starters| - 1]
  {
    var i :| 0 <= i < |starters| && starters[i] == s;
    if i < |starters| - 1 {
      assert starters[..|starters| - 1][i] == s;
    }
  }

  lemma StarterIdsLast(starters: seq<SeedItem>)
    requires starters != []
    ensures StarterIds(starters) == StarterIds(starters[..|starters| - 1]) + {starters[|starters| - 1].id}
  {
    var init := starters[..|starters| - 1];
    assert starters == init + [starters[|starters| - 1]];
  }

  /** With distinct ids the last entry's id is not among the earlier ones, and the earlier
      ones are distinct too. */
  lemma DistinctIdsInit(starters: seq<SeedItem>)
    requires starters != [] && DistinctIds(starters)
    ensures var init := starters[..|starters| - 1];
      DistinctIds(init) && starters[|starters| - 1].id !in StarterIds(init)
  {
    var init := starters[..|starters| - 1];
    var last := starters[|starters| - 1];
    forall i, j | 0 <= i < j < |init| ensures init[i].id != init[j].id {
      assert init[i] == starters[i] && init[j] == starters[j];
    }
    forall s | s in init ensures s.id != last.id {
      var i :| 0 <= i < |init| && init[i] == s;
      assert starters[i] == s;
    }
  }

  /** What seeding promises about ids: they stay unique, and the catalog ends up with
      exactly its old ids and the entries' ids. */
  ghost predicate IdsAfter(items: seq<StoreItem>, starters: seq<SeedItem>, now: string) {
    var r := SeedCatalog(items, starters, now).items;
    UniqueStoreItemIds(r) && StoreItemIds(r) == StoreItemIds(items) + StarterIds(starters)
  }

  lemma IdsStep(items: seq<StoreItem>, starters: seq<SeedItem>, now: string)
    requires starters != []
    requires IdsAfter(items, starters[..|starters| - 1], now)
    ensures IdsAfter(items, starters, now)
  {
    SeedOneIds(SeedCatalog(items, starters[..|starters| - 1], now), starters[|starters| - 1], now);
    StarterIdsLast(starters);
  }

  /** Seeding keeps ids unique, and afterwards the catalog holds exactly its old ids and
      the starter ids. */
  lemma {:induction false} SeedCatalogIds(items: seq<StoreItem>, starters: seq<SeedItem>, now: string)
    requires UniqueStoreItemIds(items)
    ensures IdsAfter(items, starters, now)
  {
    if starters == [] {
      assert StarterIds(starters) == {};
    } else {
      SeedCatalogIds(items, starters[..|starters| - 1], now);
      IdsStep(items, starters, now);
    }
  }

  lemma CountStep(seen: set<string>, base: set<string>, id: string)
    requires id !in seen
    ensures |(seen + {id}) - base| == |seen - base| + if id in base then 0 else 1
  {
    if id in base {
      assert (seen + {id}) - base == seen - base;
    } else {
      assert (seen + {id}) - base == (seen - base) + {id};
    }
  }

  /** One pass counts its entry exactly when the id is new to both the starting catalog
      and the entries seen so far. */
  lemma SeedOneCounts(acc: Seeded, item: SeedItem, now: string, base: set<string>, seen: set<string>)
    requires UniqueStoreItemIds(acc.items)
    requires StoreItemIds(acc.items) == base + seen && item.id !in seen
    requires acc.inserted == |seen - base|
    ensures SeedOne(acc, item, now).inserted == |(seen + {item.id}) - base|
  {
    SeedOneIds(acc, item, now);
    CountStep(seen, base, item.id);
  }

  ghost predicate CountAfter(items: seq<StoreItem>, starters: seq<SeedItem>, now: string) {
    SeedCatalog(items, starters, now).inserted == |StarterIds(starters) - StoreItemIds(items)|
  }

  lemma CountStepFor(items: seq<StoreItem>, starters: seq<SeedItem>, now: string)
    requires starters != [] && DistinctIds(starters)
    requires IdsAfter(items, starters[..|starters| - 1], now)
    requires CountAfter(items, starters[..|starters| - 1], now)
    ensures CountAfter(items, starters, now)
  {
    var init := starters[..|starters| - 1];
    DistinctIdsInit(starters);
    SeedOneCounts(SeedCatalog(items, init, now), starters[|starters| - 1], now,
                  StoreItemIds(items), StarterIds(init));
    StarterIdsLast(starters);
  }

  /** `storeItemsInserted` is the number of starter ids the catalog lacked. */
  lemma {:induction false} SeedCatalogInserted(items: seq<StoreItem>, starters: seq<SeedItem>, now: string)
    requires UniqueStoreItemIds(items)
    requires DistinctIds(starters)
    ensures SeedCatalog(items, starters, now).inserted == |StarterIds(starters) - StoreItemIds(items)|
  {
    if starters == [] {
      assert StarterIds(starters) == {};
    } else {
      DistinctIdsInit(starters);
      SeedCatalogInserted(items, starters[..|starters| - 1], now);
      SeedCatalogIds(items, starters[..|starters| - 1], now);
      CountStepFor(items, starters, now);
    }
  }

  ghost predicate AllSettled(items: seq<StoreItem>, starters: seq<SeedItem>) {
    forall s :: s in starters ==> Settled(items, s)
  }

  /** A pass over another id leaves a settled entry settled. */
  lemma SettledKept(acc: Seeded, item: SeedItem, s: SeedItem, now: string)
    requires UniqueStoreItemIds(acc.items)
    requires Settled(acc.items, s) && s.id != item.id
    ensures Settled(SeedOne(acc, item, now).items, s)
  {
    var r := SeedOne(acc, item, now).items;
    SeedOneSettles(acc, item, now);
    SeedOneIds(acc, item, now);
    var x := acc.items[FindStoreItem(acc.items, s.id).value];
    assert x in r;
    FoundStoredItem(r, x);
  }

  lemma SettlesStep(items: seq<StoreItem>, starters: seq<SeedItem>, now: string)
    requires starters != [] && DistinctIds(starters)
    requires IdsAfter(items, starters[..|starters| - 1], now)
    requires AllSettled(SeedCatalog(items, starters[..|starters| - 1], now).items, starters[..|starters| - 1])
    ensures AllSettled(SeedCatalog(items, starters, now).items, starters)
  {
    var init := starters[..|starters| - 1];
    var last := starters[|starters| - 1];
    DistinctIdsInit(starters);
    var acc := SeedCatalog(items, init, now);
    SeedOneSettles(acc, last, now);
    forall s | s in starters ensures Settled(SeedOne(acc, last, now).items, s) {
      if s != last {
        InitOrLast(starters, s);
        assert Settled(acc.items, s);
        assert s.id in StarterIds(init);
        SettledKept(acc, last, s, now);
      }
    }
  }

  /** After seeding every starter entry is settled. */
  lemma {:induction false} SeedCatalogSettles(items: seq<StoreItem>, starters: seq<SeedItem>, now: string)
    requires UniqueStoreItemIds(items)
    requires DistinctIds(starters)
    ensures AllSettled(SeedCatalog(items, starters, now).items, starters)
  {
    if starters != [] {
      DistinctIdsInit(starters);
      SeedCatalogSettles(items, starters[..|starters| - 1], now);
      SeedCatalogIds(items, starters[..|starters| - 1], now);
      SettlesStep(items, starters, now);
    }
  }

  /** Over a catalog where every starter entry is settled, seeding changes nothing and
      inserts nothing. */
  lemma {:induction false} SeedSettledCatalog(items: seq<StoreItem>, starters: seq<SeedItem>, now: string)
    requires UniqueStoreItemIds(items)
    requires AllSettled(items, starters)
    ensures SeedCatalog(items, starters, now) == Seeded(items, 0)
  {
    if starters != [] {
      var init := starters[..|starters| - 1];
      var last := starters[|starters| - 1];
      assert forall s :: s in init ==> s in starters;
      SeedSettledCatalog(items, init, now);
      assert last in starters;
      SeedOneSettled(Seeded(items, 0), last, now);
    }
  }

  ghost predicate KeepsAfter(items: seq<StoreItem>, starters: seq<SeedItem>, now: string) {
    forall x :: x in items && !IsRefreshed(x.id) ==> x in SeedCatalog(items, starters, now).items
  }

  lemma KeepsStep(items: seq<StoreItem>, starters: seq<SeedItem>, now: string)
    requires starters != []
    requires IdsAfter(items, starters[..|starters| - 1], now)
    requires KeepsAfter(items, starters[..|starters| - 1], now)
    ensures KeepsAfter(items, starters, now)
  {
    SeedOneSettles(SeedCatalog(items, starters[..|starters| - 1], now), starters[|starters| - 1], now);
  }

  /** Entries that are not one of the two breeding items are never overwritten, and nothing
      is removed. */
  lemma {:induction false} SeedCatalogKeeps(items: seq<StoreItem>, starters: seq<SeedItem>, now: string)
    requires UniqueStoreItemIds(items)
    ensures KeepsAfter(items, starters, now)
  {
    if starters != [] {
      SeedCatalogKeeps(items, starters[..|starters| - 1], now);
      SeedCatalogIds(items, starters[..|starters| - 1], now);
      KeepsStep(items, starters, now);
    }
  }

  // ----- seedDatabase -----

  lemma DefaultNameTrimmed()
    ensures Trim(DefaultProfileName) == DefaultProfileName
  {
    TrimIsSlice(DefaultProfileName);
    assert LeadingWhitespace(DefaultProfileName) == 0;
    assert TrailingWhitespace(DefaultProfileName) == 0;
  }

  /** A profile named "Family" is created exactly when there were no profiles, with a
      wallet that is 0/0 unless one was already stored under its id. */
  lemma SeedProfile(t: Tables, catalog: seq<SeedItem>, profileId: string, now: string)
    ensures var step := SeedOutcome(t, catalog, profileId, now);
      && (step.value.profileCreated <==> |t.profiles| == 0)
      && (|t.profiles| == 0 ==>
            && step.tables.profiles == [Profile(profileId, DefaultProfileName, now, now)]
            && profileId in step.tables.wallets
            && step.tables.wallets[profileId] == Wallets.WalletOf(t.wallets, profileId, now))
  {
    DefaultNameTrimmed();
  }

  /** With profiles already present neither profiles nor wallets change; no table but the
      profiles, the wallets and the catalog ever changes. */
  lemma SeedTouchesOnly(t: Tables, catalog: seq<SeedItem>, profileId: string, now: string)
    ensures var step := SeedOutcome(t, catalog, profileId, now);
      && (|t.profiles| != 0 ==> step.tables.profiles == t.profiles && step.tables.wallets == t.wallets)
      && step.tables == t.(profiles := step.tables.profiles, wallets := step.tables.wallets,
                           storeItems := step.tables.storeItems)
  {
  }

  /** After seeding every catalog id is stored, the old ids stay and no other id appears,
      and `storeItemsInserted` counts the catalog ids that were missing. */
  lemma SeedStoreItems(t: Tables, catalog: seq<SeedItem>, profileId: string, now: string)
    requires UniqueStoreItemIds(t.storeItems)
    requires DistinctIds(catalog)
    ensures var step := SeedOutcome(t, catalog, profileId, now);
      && UniqueStoreItemIds(step.tables.storeItems)
      && StoreItemIds(step.tables.storeItems) == StoreItemIds(t.storeItems) + StarterIds(catalog)
      && step.value.storeItemsInserted == |StarterIds(catalog) - StoreItemIds(t.storeItems)|
  {
    SeedCatalogIds(t.storeItems, catalog, now);
    SeedCatalogInserted(t.storeItems, catalog, now);
  }

  /** Seeding never overwrites an entry other than the two breeding items, and removes
      nothing. */
  lemma SeedKeepsOtherItems(t: Tables, catalog: seq<SeedItem>, profileId: string, now: string)
    requires UniqueStoreItemIds(t.storeItems)
    ensures forall x :: x in t.storeItems && !IsRefreshed(x.id) ==>
      x in SeedOutcome(t, catalog, profileId, now).tables.storeItems
  {
    SeedCatalogKeeps(t.storeItems, catalog, now);
  }

  /** A stored starter is overwritten only when its text differs: over a catalog whose
      starter entries all hold the name and description a seed would refresh them to,
      seeding leaves the store items as they are and inserts nothing. */
  lemma SeedLeavesSettledItems(t: Tables, catalog: seq<SeedItem>, profileId: string, now: string)
    requires UniqueStoreItemIds(t.storeItems)
    requires forall s :: s in catalog ==> Settled(t.storeItems, s)
    ensures var step := SeedOutcome(t, catalog, profileId, now);
      step.tables.storeItems == t.storeItems && step.value.storeItemsInserted == 0
  {
    SeedSettledCatalog(t.storeItems, catalog, now);
  }

  /** A second seed creates no profile, inserts nothing and changes no table. */
  lemma SeedIdempotent(t: Tables, catalog: seq<SeedItem>, profileId: string, profileId2: string,
                       now: string, now2: string)
    requires UniqueStoreItemIds(t.storeItems)
    requires DistinctIds(catalog)
    ensures var once := SeedOutcome(t, catalog, profileId, now).tables;
      SeedOutcome(once, catalog, profileId2, now2) == Step(once, SeedResult(false, 0))
  {
    var once := SeedOutcome(t, catalog, profileId, now).tables;
    SeedCatalogIds(t.storeItems, catalog, now);
    SeedCatalogSettles(t.storeItems, catalog, now);
    SeedSettledCatalog(once.storeItems, catalog, now2);
    assert |once.profiles| != 0;
  }

  /** Seeding keeps every table invariant. */
  lemma SeedKeepsValid(t: Tables, catalog: seq<SeedItem>, profileId: string, now: string)
    requires ValidTables(t)
    ensures ValidTables(SeedOutcome(t, catalog, profileId, now).tables)
  {
    SeedCatalogIds(t.storeItems, catalog, now);
    SeedTouchesOnly(t, catalog, profileId, now);
    Wallets.WalletWritesKeepKeying(t.wallets, profileId, 0, 0, now);
    var after := SeedOutcome(t, catalog, profileId, now).tables;
    if |t.profiles| == 0 {
      assert |after.profiles| == 1;
    }
  }

  /** The properties above for the starter catalog: its ids are all stored after the first
      seed, and running the seed again is a no-op. */
  lemma StarterSeedIdempotent(t: Tables, profileId: string, profileId2: string, now: string, now2: string)
    requires UniqueStoreItemIds(t.storeItems)
    ensures var once := SeedOutcome(t, StarterStoreItems, profileId, now).tables;
      && StarterIds(StarterStoreItems) <= StoreItemIds(once.storeItems)
      && SeedOutcome(once, StarterStoreItems, profileId2, now2) == Step(once, SeedResult(false, 0))
  {
    StarterIdsDistinct();
    SeedStoreItems(t, StarterStoreItems, profileId, now);
    SeedIdempotent(t, StarterStoreItems, profileId, profileId2, now, now2);
  }

  /** `seedDatabase`: no transaction; each write goes to the tables directly. */
  method SeedDatabase(db: Database, profileId: string, now: string) returns (result: SeedResult)
    requires db.Valid()
    modifies db
    ensures db.Valid()
    ensures Step(db.Snapshot(), result) == SeedOutcome(old(db.Snapshot()), StarterStoreItems, profileId, now)
  {
    SeedKeepsValid(db.Snapshot(), StarterStoreItems, profileId, now);
    var walletRepo := new Wallets.WalletRepo(db);
    var profileCreated := false;
    if |db.profiles| == 0 {
      var profile := Profile(profileId, Trim(DefaultProfileName), now, now);
      db.profiles := db.profiles + [profile];
      var wallet := walletRepo.EnsureForProfile(profile.id, Some(0), Some(0), now);
      profileCreated := true;
    }
    var storeItemsInserted := SeedCatalogInto(db, StarterStoreItems, now);
    result := SeedResult(profileCreated, storeItemsInserted);
  }

  /** The loop of `seedDatabase` over a catalog of entries. */
  method SeedCatalogInto(db: Database, starters: seq<SeedItem>, now: string) returns (inserted: nat)
    modifies db
    ensures var seeded := SeedCatalog(old(db.storeItems), starters, now);
      db.Snapshot() == old(db.Snapshot()).(storeItems := seeded.items) && inserted == seeded.inserted
  {
    ghost var start := db.storeItems;
    ghost var before := db.Snapshot();
    inserted := 0;
    for i := 0 to |starters|
      invariant db.storeItems == SeedCatalog(start, starters[..i], now).items
      invariant inserted == SeedCatalog(start, starters[..i], now).inserted
      invariant db.Snapshot() == before.(storeItems := db.storeItems)
    {
      SeedCatalogStep(start, starters, i, now);
      var item := starters[i];
      var existing := FindStoreItem(db.storeItems, item.id);
      if existing.None? {
        db.storeItems := Economy.PutStoreItem(db.storeItems, Stamped(item, now));
        inserted := inserted + 1;
        continue;
      }
      var found := db.storeItems[existing.value];
      if (item.id == BasicSessionItemId || item.id == ExtraBreedCardItemId)
         && (found.name != item.name || found.description != item.description)
      {
        db.storeItems := Economy.PutStoreItem(db.storeItems, Stamped(item, now));
      }
    }
    assert starters[..|starters|] == starters;
  }
}
