/** EconomyService: purchases from the store, manual wallet and inventory adjustments with
    an audit log, and management of the store catalog. */
module Economy {
  import opened Collections
  import opened Text
  import opened Models
  import opened Store
  import Wallets
  import Inventory
  import Pets

  /** `toPetSpecies`: a pet card without a species restriction sells an "other" pet. */
  function ToPetSpecies(item: StoreItem): (r: Species)
    ensures item.speciesRestriction.Some? ==> r == item.speciesRestriction.value
    ensures item.speciesRestriction.None? ==> r == OtherSpecies
  {
    GetOr(item.speciesRestriction, OtherSpecies)
  }

  /** `createTransaction`: a log entry with trimmed notes. */
  function CreateTransaction(id: string, profileId: string, kind: TransactionKind, deltaPetCoins: int,
                             deltaCoins: int, notes: string, now: string): TransactionLog
  {
    TransactionLog(id, profileId, kind, deltaPetCoins, deltaCoins, Trim(notes), now)
  }

  // ----- slugs and custom ids -----

  /** The characters `[a-z0-9]` a slug keeps. */
  predicate IsSlugChar(c: char) {
    ('a' <= c <= 'z') || ('0' <= c <= '9')
  }

  /** The slug characters of `s`, in order. */
  function SlugChars(s: string): string {
    if s == [] then [] else (if IsSlugChar(s[0]) then [s[0]] else []) + SlugChars(s[1..])
  }

  predicate SlugAlphabet(s: string) {
    forall i :: 0 <= i < |s| ==> IsSlugChar(s[i]) || s[i] == '-'
  }

  /** Positions `i` and `i + 1` both hold a dash. */
  predicate DashPair(s: string, i: int)
    requires 0 <= i < |s| - 1
  {
    s[i] == '-' && s[i + 1] == '-'
  }

  predicate NoDoubleDash(s: string) {
    forall i :: 0 <= i < |s| - 1 ==> !DashPair(s, i)
  }

  lemma {:induction false} SlugCharsAppend(a: string, b: string)
    ensures SlugChars(a + b) == SlugChars(a) + SlugChars(b)
  {
    if a == [] {
      assert a + b == b;
    } else {
      var head := if IsSlugChar(a[0]) then [a[0]] else [];
      assert (a + b)[0] == a[0];
      assert (a + b)[1..] == a[1..] + b;
      SlugCharsAppend(a[1..], b);
      assert SlugChars(a + b) == head + (SlugChars(a[1..]) + SlugChars(b));
      assert head + (SlugChars(a[1..]) + SlugChars(b)) == (head + SlugChars(a[1..])) + SlugChars(b);
    }
  }

  lemma {:induction false} SlugCharsOfWhitespace(s: string)
    requires AllWhitespace(s)
    ensures SlugChars(s) == []
  {
    if s != [] {
      assert IsWhitespace(s[0]);
      SlugCharsOfWhitespace(s[1..]);
    }
  }

  /** Trimming removes no slug character. */
  lemma TrimKeepsSlugChars(s: string)
    ensures SlugChars(Trim(s)) == SlugChars(s)
  {
    TrimIsSlice(s);
    TrimDropsWhitespace(s);
    var a, b := TrimFrom(s), TrimTo(s);
    assert s == s[..a] + s[a..b] + s[b..];
    SlugCharsAppend(s[..a] + s[a..b], s[b..]);
    SlugCharsAppend(s[..a], s[a..b]);
    SlugCharsOfWhitespace(s[..a]);
    SlugCharsOfWhitespace(s[b..]);
  }

  /** The longest suffix of `s` that starts with a slug character (or is empty). */
  function DropNonSlug(s: string): (r: string)
    ensures |r| <= |s|
    ensures r == [] || IsSlugChar(r[0])
    ensures SlugChars(r) == SlugChars(s)
  {
    if s == [] || IsSlugChar(s[0]) then s else DropNonSlug(s[1..])
  }

  /** `.replace(/[^a-z0-9]+/g, '-')`: every maximal run of other characters becomes one dash. */
  function CollapseNonSlugRuns(s: string): (r: string)
    ensures SlugAlphabet(r) && NoDoubleDash(r)
    ensures SlugChars(r) == SlugChars(s)
    ensures r == [] <==> s == []
    ensures s != [] && IsSlugChar(s[0]) ==> r[0] == s[0]
    decreases |s|
  {
    if s == [] then []
    else if IsSlugChar(s[0]) then
      var rest := CollapseNonSlugRuns(s[1..]);
      var r := [s[0]] + rest;
      assert forall i :: 1 <= i < |r| ==> r[i] == rest[i - 1];
      assert forall i :: 1 <= i < |r| - 1 ==> (DashPair(r, i) <==> DashPair(rest, i - 1));
      r
    else
      var rest := CollapseNonSlugRuns(DropNonSlug(s[1..]));
      var r := "-" + rest;
      assert forall i :: 1 <= i < |r| ==> r[i] == rest[i - 1];
      assert forall i :: 1 <= i < |r| - 1 ==> (DashPair(r, i) <==> DashPair(rest, i - 1));
      assert |r| > 1 ==> !DashPair(r, 0);
      r
  }

  /** `.replace(/^-+/, '')`. */
  function StripLeadingDashes(s: string): (r: string)
    ensures |r| <= |s| && r == s[|s| - |r|..]
    ensures r == [] || r[0] != '-'
  {
    if s == [] || s[0] != '-' then s else StripLeadingDashes(s[1..])
  }

  /** `.replace(/-+$/, '')`. */
  function StripTrailingDashes(s: string): (r: string)
    ensures |r| <= |s| && r == s[..|r|]
    ensures r == [] || r[|r| - 1] != '-'
  {
    if s == [] || s[|s| - 1] != '-' then s else StripTrailingDashes(s[..|s| - 1])
  }

  /** A slice of a dash-separated slug is one too, with no fewer slug characters outside
      the dashes it drops. */
  lemma SliceKeepsSlugShape(s: string, a: nat, b: nat)
    requires a <= b <= |s|
    requires SlugAlphabet(s) && NoDoubleDash(s)
    ensures SlugAlphabet(s[a..b]) && NoDoubleDash(s[a..b])
  {
    var t := s[a..b];
    assert forall i :: 0 <= i < |t| ==> t[i] == s[a + i];
    assert forall i :: 0 <= i < |t| - 1 ==> (DashPair(t, i) <==> DashPair(s, a + i));
  }

  /** The same for a suffix. */
  lemma SuffixKeepsSlugShape(s: string, a: nat)
    requires a <= |s|
    requires SlugAlphabet(s) && NoDoubleDash(s)
    ensures SlugAlphabet(s[a..]) && NoDoubleDash(s[a..])
  {
    SliceKeepsSlugShape(s, a, |s|);
    assert s[a..|s|] == s[a..];
  }

  lemma {:induction false} StripLeadingKeepsSlugChars(s: string)
    ensures SlugChars(StripLeadingDashes(s)) == SlugChars(s)
  {
    if s != [] && s[0] == '-' {
      StripLeadingKeepsSlugChars(s[1..]);
    }
  }

  lemma {:induction false} StripTrailingKeepsSlugChars(s: string)
    ensures SlugChars(StripTrailingDashes(s)) == SlugChars(s)
  {
    if s != [] && s[|s| - 1] == '-' {
      var init := s[..|s| - 1];
      StripTrailingKeepsSlugChars(init);
      assert s == init + ['-'];
      SlugCharsAppend(init, ['-']);
    }
  }

  /** Dropping the leading dashes keeps the slug shape and the letters and digits. */
  lemma StripLeadingShape(s: string)
    requires SlugAlphabet(s) && NoDoubleDash(s)
    ensures var lead := StripLeadingDashes(s);
      && SlugAlphabet(lead) && NoDoubleDash(lead) && SlugChars(lead) == SlugChars(s)
  {
    var lead := StripLeadingDashes(s);
    SuffixKeepsSlugShape(s, |s| - |lead|);
    StripLeadingKeepsSlugChars(s);
  }

  /** Dropping the trailing dashes keeps the slug shape, the letters and digits, and the
      first character. */
  lemma StripTrailingShape(s: string)
    requires SlugAlphabet(s) && NoDoubleDash(s)
    ensures var r := StripTrailingDashes(s);
      && SlugAlphabet(r) && NoDoubleDash(r) && SlugChars(r) == SlugChars(s)
      && (r == [] || r[0] == s[0])
  {
    var r := StripTrailingDashes(s);
    SliceKeepsSlugShape(s, 0, |r|);
    assert r == s[0..|r|];
    StripTrailingKeepsSlugChars(s);
  }

  /** A slug that starts with a letter or digit has some letter or digit. */
  lemma SlugHeadCounts(r: string)
    requires r != [] && IsSlugChar(r[0])
    ensures SlugChars(r) != []
  {
    assert SlugChars(r) == [r[0]] + SlugChars(r[1..]);
  }

  /** Dropping the dashes at both ends of a dash-separated slug leaves one that starts and
      ends with a letter or digit and has the same letters and digits. */
  lemma StripKeepsShape(s: string)
    requires SlugAlphabet(s) && NoDoubleDash(s)
    ensures var r := StripTrailingDashes(StripLeadingDashes(s));
      && SlugAlphabet(r) && NoDoubleDash(r)
      && (r == [] || (IsSlugChar(r[0]) && IsSlugChar(r[|r| - 1])))
      && SlugChars(r) == SlugChars(s)
      && (r == [] <==> SlugChars(s) == [])
  {
    var lead := StripLeadingDashes(s);
    StripLeadingShape(s);
    var r := StripTrailingDashes(lead);
    StripTrailingShape(lead);
    if r != [] {
      assert IsSlugChar(r[0]) && IsSlugChar(r[|r| - 1]);
      SlugHeadCounts(r);
    }
  }

  /** The last two steps of `slugify` on an already lower-cased, trimmed string. */
  function SlugOf(s: string): (r: string)
    ensures SlugAlphabet(r) && NoDoubleDash(r)
    ensures r == [] || (IsSlugChar(r[0]) && IsSlugChar(r[|r| - 1]))
    ensures SlugChars(r) == SlugChars(s)
    ensures r == [] <==> SlugChars(s) == []
  {
    var collapsed := CollapseNonSlugRuns(s);
    StripKeepsShape(collapsed);
    StripTrailingDashes(StripLeadingDashes(collapsed))
  }

  /** The fallback slug is a slug. */
  lemma ItemIsSlug()
    ensures SlugAlphabet("item") && NoDoubleDash("item")
    ensures IsSlugChar("item"[0]) && IsSlugChar("item"[3])
    ensures SlugChars("item") == "item"
  {
  }

  /** `slugify`: lower-case, trim, turn every run of characters other than `[a-z0-9]` into
      one dash, drop dashes at the ends, and fall back to "item" when nothing is left. */
  function Slugify(value: string): string {
    var slug := SlugOf(Trim(LowerCase(value)));
    if slug == [] then "item" else slug
  }

  /** A slug is never empty, holds only letters, digits and single dashes, and starts and
      ends with a letter or digit. */
  lemma SlugifyIsSlug(value: string)
    ensures var r := Slugify(value);
      && |r| > 0 && SlugAlphabet(r) && NoDoubleDash(r)
      && IsSlugChar(r[0]) && IsSlugChar(r[|r| - 1])
  {
    var slug := SlugOf(Trim(LowerCase(value)));
    if slug == [] {
      ItemIsSlug();
    }
  }

  /** The slug keeps every letter and digit of the lower-cased name, in order, and is
      "item" when the name has none. */
  lemma SlugifyKeepsLettersAndDigits(value: string)
    ensures SlugChars(LowerCase(value)) != [] ==> SlugChars(Slugify(value)) == SlugChars(LowerCase(value))
    ensures SlugChars(LowerCase(value)) == [] ==> Slugify(value) == "item"
  {
    var l := LowerCase(value);
    TrimKeepsSlugChars(l);
    var slug := SlugOf(Trim(l));
    assert Slugify(value) == (if slug == [] then "item" else slug);
  }

  /** "custom-", the slug, a dash and the identifier prefix. */
  function JoinCustomId(slug: string, prefix: string): (r: string)
    ensures |r| == 8 + |slug| + |prefix|
    ensures r[..7] == "custom-" && r[7..7 + |slug|] == slug && r[7 + |slug|] == '-'
    ensures r[8 + |slug|..] == prefix
  {
    "custom-" + slug + "-" + prefix
  }

  /** `createCustomStoreItemId`: "custom-", the slug of the name, a dash and the first
      eight characters of a fresh identifier. */
  function CreateCustomStoreItemId(name: string, uuid: string): (r: string)
    ensures |r| >= 8 + |Slugify(name)| && r[..7] == "custom-"
    ensures r[7..7 + |Slugify(name)|] == Slugify(name) && r[7 + |Slugify(name)|] == '-'
    ensures r[8 + |Slugify(name)|..] == uuid[..if |uuid| < 8 then |uuid| else 8]
  {
    JoinCustomId(Slugify(name), uuid[..if |uuid| < 8 then |uuid| else 8])
  }

  /** The two prices a catalog write stores. */
  datatype Prices = Prices(pricePetCoins: int, priceCoins: int)

  /** `normalizeStoreItemPrices`: a pet card is priced only in PetCoins, anything else only
      in Coins, and a negative price becomes 0. */
  function NormalizeStoreItemPrices(itemType: StoreItemType, pricePetCoins: int, priceCoins: int): (r: Prices)
    ensures r.pricePetCoins >= 0 && r.priceCoins >= 0
    ensures itemType == PetCard ==> r.priceCoins == 0 && (pricePetCoins >= 0 ==> r.pricePetCoins == pricePetCoins)
    ensures itemType == PetCard && pricePetCoins < 0 ==> r.pricePetCoins == 0
    ensures itemType != PetCard ==> r.pricePetCoins == 0 && (priceCoins >= 0 ==> r.priceCoins == priceCoins)
    ensures itemType != PetCard && priceCoins < 0 ==> r.priceCoins == 0
  {
    if itemType == PetCard then Prices(Max(0, pricePetCoins), 0) else Prices(0, Max(0, priceCoins))
  }

  /** Normalized prices are already normal. */
  lemma NormalizeIdempotent(itemType: StoreItemType, pricePetCoins: int, priceCoins: int)
    ensures var p := NormalizeStoreItemPrices(itemType, pricePetCoins, priceCoins);
      NormalizeStoreItemPrices(itemType, p.pricePetCoins, p.priceCoins) == p
  {
  }

  // ----- purchases -----

  datatype PurchaseResult = PurchaseResult(
    storeItem: StoreItem,
    wallet: Wallet,
    createdPetId: Option<string>,
    inventoryItem: Option<InventoryItem>,
    transactionLog: TransactionLog)

  /** The pet a purchased pet card becomes: the card's name, tags and photo, the species it
      is restricted to (or "other"), unknown gender, not wild, never bred, noted as bought. */
  function PurchasedPet(item: StoreItem, profileId: string, petId: string, now: string): (r: Pet)
    ensures r.id == petId && r.profileId == profileId && r.name == item.name
    ensures r.species == (if item.speciesRestriction.Some? then item.speciesRestriction.value else OtherSpecies)
    ensures r.gender == UnknownGender && !r.wasWild && r.breedCount == 0
    ensures r.tags == item.tags && r.photoId == item.photoId
    ensures r.notes == Some("Purchased from store: " + item.name)
    ensures r.createdAt == r.updatedAt == now
  {
    Pet(petId, profileId, item.name, ToPetSpecies(item), UnknownGender, false, item.tags, 0, item.photoId,
        Some("Purchased from store: " + item.name), now, now)
  }

  function PetPurchaseNote(name: string): string {
    "Purchased pet item \"" + name + "\""
  }

  function ItemPurchaseNote(name: string): string {
    "Purchased item \"" + name + "\""
  }

  /** One more of an item in the profile's inventory: the existing row is incremented, or a
      row holding 1 is added. */
  function AddOne(rows: seq<InventoryItem>, profileId: string, itemId: string, rowId: string,
                  now: string): Inventory.Upsert
  {
    match FindInventoryRow(rows, profileId, itemId)
    case Some(i) =>
      var item := rows[i].(quantity := rows[i].quantity + 1, updatedAt := now);
      Inventory.Upsert(rows[i := item], item)
    case None =>
      var item := InventoryItem(rowId, profileId, itemId, 1, now, now);
      Inventory.Upsert(rows + [item], item)
  }

  /** On a table without negative quantities, buying an item is the inventory upsert by +1. */
  lemma AddOneIsUpsertOfOne(rows: seq<InventoryItem>, profileId: string, itemId: string, rowId: string,
                            now: string)
    requires QuantitiesNonNegative(rows)
    ensures AddOne(rows, profileId, itemId, rowId, now) == Inventory.ApplyDelta(rows, profileId, itemId, 1, rowId, now)
  {
  }

  lemma AddOneKeepsKeysUnique(rows: seq<InventoryItem>, profileId: string, itemId: string, rowId: string,
                              now: string)
    requires UniqueInventoryKeys(rows)
    requires rowId !in InventoryIds(rows)
    ensures UniqueInventoryKeys(AddOne(rows, profileId, itemId, rowId, now).rows)
  {
    match FindInventoryRow(rows, profileId, itemId)
    case Some(i) =>
      ReplaceRowKeepsKeys(rows, i, rows[i].(quantity := rows[i].quantity + 1, updatedAt := now));
    case None =>
      AppendRowKeepsKeys(rows, InventoryItem(rowId, profileId, itemId, 1, now, now));
  }

  /** The write half of the purchase transaction, once the buyer's wallet has been
      ensured and covers the price: debit the wallet, add the pet or the inventory unit,
      and log the purchase. */
  function PurchaseCommit(t: Tables, profileId: string, item: StoreItem, wallet: Wallet, petId: string,
                          rowId: string, logId: string, now: string): Step<PurchaseResult>
  {
    if item.itemType == PetCard then PetPurchaseCommit(t, profileId, item, wallet, petId, logId, now)
    else ItemPurchaseCommit(t, profileId, item, wallet, rowId, logId, now)
  }

  /** The wallet debited by the item's prices. */
  function Debited(wallet: Wallet, item: StoreItem, now: string): Wallet {
    wallet.(petCoins := wallet.petCoins - item.pricePetCoins, coins := wallet.coins - item.priceCoins,
            updatedAt := now)
  }

  /** The write half for a pet card: the new pet is added. */
  function PetPurchaseCommit(t: Tables, profileId: string, item: StoreItem, wallet: Wallet, petId: string,
                             logId: string, now: string): Step<PurchaseResult>
  {
    var paid := Debited(wallet, item, now);
    var log := CreateTransaction(logId, profileId, BuyPet, -item.pricePetCoins, -item.priceCoins,
                                 PetPurchaseNote(item.name), now);
    Step(t.(wallets := t.wallets[profileId := paid], pets := t.pets + [PurchasedPet(item, profileId, petId, now)],
            transactionLogs := t.transactionLogs + [log]),
         PurchaseResult(item, paid, Some(petId), None, log))
  }

  /** The write half for any other item: one more unit in the profile's inventory. */
  function ItemPurchaseCommit(t: Tables, profileId: string, item: StoreItem, wallet: Wallet, rowId: string,
                              logId: string, now: string): Step<PurchaseResult>
  {
    var paid := Debited(wallet, item, now);
    var u := AddOne(t.inventoryItems, profileId, item.id, rowId, now);
    var log := CreateTransaction(logId, profileId, BuyItem, -item.pricePetCoins, -item.priceCoins,
                                 ItemPurchaseNote(item.name), now);
    Step(t.(wallets := t.wallets[profileId := paid], inventoryItems := u.rows,
            transactionLogs := t.transactionLogs + [log]),
         PurchaseResult(item, paid, None, Some(u.item), log))
  }

  /** `purchaseStoreItem`. The item is looked up before the transaction; inside it the
      buyer's wallet is ensured and checked, then the write half runs. `petId`, `rowId`
      and `logId` stand for the fresh ids the call draws, `now` for its clock. */
  function PurchaseOutcome(t: Tables, profileId: string, storeItemId: string, petId: string, rowId: string,
                           logId: string, now: string): Result<Step<PurchaseResult>>
  {
    match FindStoreItem(t.storeItems, storeItemId)
    case None => Err(NotFound)
    case Some(k) =>
      var item := t.storeItems[k];
      if !item.isActive then Err(NotFound)
      else
        var ensured := t.(wallets := Wallets.EnsureWallet(t.wallets, profileId, 0, 0, now));
        var wallet := Wallets.WalletOf(t.wallets, profileId, now);
        if wallet.petCoins < item.pricePetCoins || wallet.coins < item.priceCoins then Err(InsufficientFunds)
        else Ok(PurchaseCommit(ensured, profileId, item, wallet, petId, rowId, logId, now))
  }

  /** A purchase fails with NOT_FOUND exactly when no active item has the id, and with
      INSUFFICIENT_FUNDS exactly when the item is available but either balance of the
      buyer's wallet (0/0 when there is none) is below its price. */
  lemma PurchaseErrors(t: Tables, profileId: string, storeItemId: string, petId: string, rowId: string,
                       logId: string, now: string)
    requires UniqueStoreItemIds(t.storeItems)
    ensures var r := PurchaseOutcome(t, profileId, storeItemId, petId, rowId, logId, now);
      var w := Wallets.WalletOf(t.wallets, profileId, now);
      && (r == Err(NotFound) <==>
            forall k :: 0 <= k < |t.storeItems| && t.storeItems[k].id == storeItemId ==> !t.storeItems[k].isActive)
      && (r == Err(InsufficientFunds) <==>
            exists k :: 0 <= k < |t.storeItems| && t.storeItems[k].id == storeItemId && t.storeItems[k].isActive
              && (w.petCoins < t.storeItems[k].pricePetCoins || w.coins < t.storeItems[k].priceCoins))
      && (r.Err? ==> r.code == NotFound || r.code == InsufficientFunds)
  {
    match FindStoreItem(t.storeItems, storeItemId)
    case None =>
    case Some(k) =>
      assert forall j :: 0 <= j < |t.storeItems| && t.storeItems[j].id == storeItemId ==> j == k;
  }

  /** A successful purchase found an active item under the id whose prices the buyer's
      wallet covers, and its outcome is the write half on the tables with the wallet ensured. */
  lemma PurchaseFound(t: Tables, profileId: string, storeItemId: string, petId: string, rowId: string,
                      logId: string, now: string)
    requires PurchaseOutcome(t, profileId, storeItemId, petId, rowId, logId, now).Ok?
    ensures FindStoreItem(t.storeItems, storeItemId).Some?
    ensures var item := t.storeItems[FindStoreItem(t.storeItems, storeItemId).value];
      var wallet := Wallets.WalletOf(t.wallets, profileId, now);
      && item.isActive && wallet.petCoins >= item.pricePetCoins && wallet.coins >= item.priceCoins
      && PurchaseOutcome(t, profileId, storeItemId, petId, rowId, logId, now).value
         == PurchaseCommit(t.(wallets := Wallets.EnsureWallet(t.wallets, profileId, 0, 0, now)), profileId,
                           item, wallet, petId, rowId, logId, now)
  {
  }

  /** The write half debits the item's prices from the wallet, stores the debited wallet,
      appends the entry recording the debit, and changes neither profiles, nor the catalog,
      nor the events. */
  lemma CommitDebits(t: Tables, profileId: string, item: StoreItem, wallet: Wallet, petId: string,
                     rowId: string, logId: string, now: string)
    ensures var step := PurchaseCommit(t, profileId, item, wallet, petId, rowId, logId, now);
      var after := step.value.wallet;
      && after.profileId == wallet.profileId
      && after.petCoins == wallet.petCoins - item.pricePetCoins && after.coins == wallet.coins - item.priceCoins
      && step.value.storeItem == item
      && step.tables.wallets == t.wallets[profileId := after]
      && step.tables.transactionLogs == t.transactionLogs + [step.value.transactionLog]
      && step.value.transactionLog.deltaPetCoins == after.petCoins - wallet.petCoins
      && step.value.transactionLog.deltaCoins == after.coins - wallet.coins
      && step.value.transactionLog.profileId == profileId
      && step.tables.profiles == t.profiles && step.tables.storeItems == t.storeItems
      && step.tables.breedingEvents == t.breedingEvents
  {
  }

  /** The write half adds one pet for a pet card, and one unit to the profile's row for
      anything else. */
  lemma CommitDelivers(t: Tables, profileId: string, item: StoreItem, wallet: Wallet, petId: string,
                       rowId: string, logId: string, now: string)
    ensures var step := PurchaseCommit(t, profileId, item, wallet, petId, rowId, logId, now);
      && (item.itemType == PetCard ==>
            && step.tables.pets == t.pets + [PurchasedPet(item, profileId, petId, now)]
            && step.tables.inventoryItems == t.inventoryItems
            && step.value.transactionLog.kind == BuyPet)
      && (item.itemType != PetCard ==>
            && step.tables.pets == t.pets
            && step.tables.inventoryItems == AddOne(t.inventoryItems, profileId, item.id, rowId, now).rows
            && step.value.transactionLog.kind == BuyItem)
  {
  }

  /** A successful purchase debits exactly the item's prices from the buyer's wallet and
      leaves both balances non-negative; the log entry records those deltas; no other
      wallet and no other table than the one receiving the goods changes. */
  lemma PurchaseDebits(t: Tables, profileId: string, storeItemId: string, petId: string, rowId: string,
                       logId: string, now: string)
    requires PurchaseOutcome(t, profileId, storeItemId, petId, rowId, logId, now).Ok?
    ensures var step := PurchaseOutcome(t, profileId, storeItemId, petId, rowId, logId, now).value;
      var item := step.value.storeItem;
      var before := Wallets.WalletOf(t.wallets, profileId, now);
      var after := step.value.wallet;
      && item in t.storeItems && item.id == storeItemId && item.isActive
      && after.profileId == before.profileId
      && after.petCoins == before.petCoins - item.pricePetCoins && after.petCoins >= 0
      && after.coins == before.coins - item.priceCoins && after.coins >= 0
      && step.tables.wallets == t.wallets[profileId := after]
      && step.tables.transactionLogs == t.transactionLogs + [step.value.transactionLog]
      && step.value.transactionLog.deltaPetCoins == after.petCoins - before.petCoins
      && step.value.transactionLog.deltaCoins == after.coins - before.coins
      && step.value.transactionLog.profileId == profileId
      && step.tables.profiles == t.profiles && step.tables.storeItems == t.storeItems
      && step.tables.breedingEvents == t.breedingEvents
  {
    PurchaseFound(t, profileId, storeItemId, petId, rowId, logId, now);
    var k := FindStoreItem(t.storeItems, storeItemId).value;
    var ensured := t.(wallets := Wallets.EnsureWallet(t.wallets, profileId, 0, 0, now));
    CommitDebits(ensured, profileId, t.storeItems[k], Wallets.WalletOf(t.wallets, profileId, now),
                 petId, rowId, logId, now);
    var after := PurchaseOutcome(t, profileId, storeItemId, petId, rowId, logId, now).value.value.wallet;
    assert ensured.wallets[profileId := after] == t.wallets[profileId := after];
  }

  /** A pet card adds one pet and leaves the inventory alone; anything else adds one to the
      profile's row for the item and adds no pet. */
  lemma PurchaseDelivers(t: Tables, profileId: string, storeItemId: string, petId: string, rowId: string,
                         logId: string, now: string)
    requires PurchaseOutcome(t, profileId, storeItemId, petId, rowId, logId, now).Ok?
    ensures var step := PurchaseOutcome(t, profileId, storeItemId, petId, rowId, logId, now).value;
      var item := step.value.storeItem;
      && (item.itemType == PetCard ==>
            && step.tables.pets == t.pets + [PurchasedPet(item, profileId, petId, now)]
            && step.tables.inventoryItems == t.inventoryItems
            && step.value.transactionLog.kind == BuyPet)
      && (item.itemType != PetCard ==>
            && step.tables.pets == t.pets
            && step.tables.inventoryItems == AddOne(t.inventoryItems, profileId, storeItemId, rowId, now).rows
            && step.value.transactionLog.kind == BuyItem)
  {
    PurchaseFound(t, profileId, storeItemId, petId, rowId, logId, now);
    var k := FindStoreItem(t.storeItems, storeItemId).value;
    var ensured := t.(wallets := Wallets.EnsureWallet(t.wallets, profileId, 0, 0, now));
    CommitDebits(ensured, profileId, t.storeItems[k], Wallets.WalletOf(t.wallets, profileId, now),
                 petId, rowId, logId, now);
    CommitDelivers(ensured, profileId, t.storeItems[k], Wallets.WalletOf(t.wallets, profileId, now),
                   petId, rowId, logId, now);
  }

  /** A successful purchase keeps every table invariant when the drawn ids are fresh. */
  lemma PurchaseKeepsValid(t: Tables, profileId: string, storeItemId: string, petId: string, rowId: string,
                           logId: string, now: string)
    requires ValidTables(t)
    requires petId !in PetIds(t.pets) && rowId !in InventoryIds(t.inventoryItems)
    requires logId !in LogIds(t.transactionLogs)
    requires PurchaseOutcome(t, profileId, storeItemId, petId, rowId, logId, now).Ok?
    ensures ValidTables(PurchaseOutcome(t, profileId, storeItemId, petId, rowId, logId, now).value.tables)
  {
    var step := PurchaseOutcome(t, profileId, storeItemId, petId, rowId, logId, now).value;
    AppendLogKeepsIds(t.transactionLogs, step.value.transactionLog);
    var k := FindStoreItem(t.storeItems, storeItemId).value;
    if t.storeItems[k].itemType == PetCard {
      Pets.AppendPet(t.pets, PurchasedPet(t.storeItems[k], profileId, petId, now));
    } else {
      AddOneKeepsKeysUnique(t.inventoryItems, profileId, storeItemId, rowId, now);
    }
  }

  // ----- manual adjustments -----

  datatype AdjustWalletResult = AdjustWalletResult(wallet: Wallet, transactionLog: TransactionLog)

  /** `adjustWallet`: a reason is required; the wallet (created empty when missing) moves
      by both deltas, with no floor, and an adjustment entry records them. */
  function AdjustWalletOutcome(t: Tables, profileId: string, deltaPetCoins: int, deltaCoins: int,
                               notes: string, logId: string, now: string): Result<Step<AdjustWalletResult>>
  {
    if IsBlank(notes) then Err(InvalidInput)
    else
      var wallets := Wallets.AdjustWallet(t.wallets, profileId, deltaPetCoins, deltaCoins, now);
      var log := CreateTransaction(logId, profileId, Adjustment, deltaPetCoins, deltaCoins, notes, now);
      Ok(Step(t.(wallets := wallets, transactionLogs := t.transactionLogs + [log]),
              AdjustWalletResult(wallets[profileId], log)))
  }

  /** The adjustment fails exactly when the reason is only whitespace; otherwise the log
      records the wallet's actual change and carries the trimmed, non-empty reason. */
  lemma AdjustWalletEffects(t: Tables, profileId: string, deltaPetCoins: int, deltaCoins: int,
                            notes: string, logId: string, now: string)
    ensures var r := AdjustWalletOutcome(t, profileId, deltaPetCoins, deltaCoins, notes, logId, now);
      && (r.Err? <==> AllWhitespace(notes))
      && (r.Err? ==> r.code == InvalidInput)
      && (r.Ok? ==>
            var before := Wallets.WalletOf(t.wallets, profileId, now);
            var after := r.value.value.wallet;
            && after.petCoins - before.petCoins == r.value.value.transactionLog.deltaPetCoins == deltaPetCoins
            && after.coins - before.coins == r.value.value.transactionLog.deltaCoins == deltaCoins
            && r.value.tables.wallets == t.wallets[profileId := after]
            && r.value.tables.transactionLogs == t.transactionLogs + [r.value.value.transactionLog]
            && r.value.value.transactionLog.kind == Adjustment
            && r.value.value.transactionLog.notes == Trim(notes) != []
            && r.value.tables.(wallets := t.wallets, transactionLogs := t.transactionLogs) == t)
  {
    BlankIffAllWhitespace(notes);
  }

  datatype AdjustInventoryResult = AdjustInventoryResult(inventoryItem: InventoryItem, transactionLog: TransactionLog)

  /** The reason an inventory adjustment logs: the caller's notes, the item's name and the
      signed change. */
  function InventoryNote(notes: string, itemName: string, quantityDelta: int): string {
    notes + InventoryNoteTail(itemName, quantityDelta)
  }

  /** What follows the reason: the item's name and the signed change, in parentheses. */
  function InventoryNoteTail(itemName: string, quantityDelta: int): string {
    " (" + itemName + ", change " + IntToString(quantityDelta) + ")"
  }

  /** The stored note loses the leading whitespace of the reason and nothing else: the
      text after the reason ends in ")". */
  lemma InventoryNoteTrimmed(notes: string, itemName: string, quantityDelta: int)
    requires !AllWhitespace(notes)
    ensures Trim(InventoryNote(notes, itemName, quantityDelta))
         == TrimStart(notes) + InventoryNoteTail(itemName, quantityDelta)
  {
    var rest := InventoryNoteTail(itemName, quantityDelta);
    assert rest[|rest| - 1] == ')';
    TrimAppendTail(notes, rest);
  }

  /** `adjustInventory`: a reason is required and the item must exist in the catalog
      (active or not); the row is upserted with the floor at 0 and an adjustment entry
      with no money moved is logged. */
  function AdjustInventoryOutcome(t: Tables, profileId: string, itemId: string, quantityDelta: int,
                                  notes: string, rowId: string, logId: string, now: string)
    : Result<Step<AdjustInventoryResult>>
  {
    if IsBlank(notes) then Err(InvalidInput)
    else match FindStoreItem(t.storeItems, itemId)
      case None => Err(NotFound)
      case Some(k) =>
        var u := Inventory.ApplyDelta(t.inventoryItems, profileId, itemId, quantityDelta, rowId, now);
        var log := CreateTransaction(logId, profileId, Adjustment, 0, 0,
                                     InventoryNote(notes, t.storeItems[k].name, quantityDelta), now);
        Ok(Step(t.(inventoryItems := u.rows, transactionLogs := t.transactionLogs + [log]),
                AdjustInventoryResult(u.item, log)))
  }

  /** INVALID_INPUT exactly for a blank reason, then NOT_FOUND exactly for an id outside the
      catalog; on success the row holds the floored sum, no wallet changes, and the profile's
      log is an adjustment that moves no money and whose note is the caller's reason without
      its leading whitespace, followed by the item's name and the signed change. */
  lemma AdjustInventoryEffects(t: Tables, profileId: string, itemId: string, quantityDelta: int,
                               notes: string, rowId: string, logId: string, now: string)
    ensures var r := AdjustInventoryOutcome(t, profileId, itemId, quantityDelta, notes, rowId, logId, now);
      && (r == Err(InvalidInput) <==> AllWhitespace(notes))
      && (r == Err(NotFound) <==> !AllWhitespace(notes) && itemId !in StoreItemIds(t.storeItems))
      && (r.Ok? ==>
            var row := r.value.value.inventoryItem;
            && row.profileId == profileId && row.itemId == itemId && row.quantity >= 0
            && row.quantity == (match FindInventoryRow(t.inventoryItems, profileId, itemId)
                                case Some(i) => Max(0, t.inventoryItems[i].quantity + quantityDelta)
                                case None => Max(0, quantityDelta))
            && row in r.value.tables.inventoryItems
            && r.value.tables.wallets == t.wallets
            && r.value.value.transactionLog.deltaPetCoins == 0 && r.value.value.transactionLog.deltaCoins == 0
            && r.value.value.transactionLog.kind == Adjustment
            && r.value.value.transactionLog.profileId == profileId
            && r.value.value.transactionLog.notes
               == TrimStart(notes)
                  + InventoryNoteTail(t.storeItems[FindStoreItem(t.storeItems, itemId).value].name, quantityDelta)
            && r.value.tables.transactionLogs == t.transactionLogs + [r.value.value.transactionLog])
  {
    BlankIffAllWhitespace(notes);
    if !AllWhitespace(notes) && itemId in StoreItemIds(t.storeItems) {
      InventoryNoteTrimmed(notes, t.storeItems[FindStoreItem(t.storeItems, itemId).value].name, quantityDelta);
    }
    Inventory.ApplyDeltaQuantity(t.inventoryItems, profileId, itemId, quantityDelta, rowId, now);
  }

  /** A successful adjustment keeps every table invariant when the drawn ids are fresh. */
  lemma AdjustInventoryKeepsValid(t: Tables, profileId: string, itemId: string, quantityDelta: int,
                                  notes: string, rowId: string, logId: string, now: string)
    requires ValidTables(t)
    requires rowId !in InventoryIds(t.inventoryItems) && logId !in LogIds(t.transactionLogs)
    requires AdjustInventoryOutcome(t, profileId, itemId, quantityDelta, notes, rowId, logId, now).Ok?
    ensures ValidTables(AdjustInventoryOutcome(t, profileId, itemId, quantityDelta, notes, rowId, logId, now).value.tables)
  {
    var step := AdjustInventoryOutcome(t, profileId, itemId, quantityDelta, notes, rowId, logId, now).value;
    Inventory.ApplyDeltaKeepsKeysUnique(t.inventoryItems, profileId, itemId, quantityDelta, rowId, now);
    AppendLogKeepsIds(t.transactionLogs, step.value.transactionLog);
  }

  // ----- the store catalog -----

  /** The fields `addCustomStoreItem` and `updateStoreItem` take from the caller. */
  datatype StoreItemInput = StoreItemInput(
    itemType: StoreItemType,
    name: string,
    description: string,
    speciesRestriction: Option<Species>,
    pricePetCoins: int,
    priceCoins: int,
    photoId: Option<string>,
    tags: seq<string>,
    isActive: bool)

  /** `storeItems.put(item)`: the item replaces the one with its id, or is appended. */
  function PutStoreItem(items: seq<StoreItem>, item: StoreItem): seq<StoreItem> {
    match FindStoreItem(items, item.id)
    case Some(k) => items[k := item]
    case None => items + [item]
  }

  /** After `put` the item is what its id finds, no other item is lost or changed, and ids
      stay unique. */
  lemma PutStoreItemSpec(items: seq<StoreItem>, item: StoreItem)
    requires UniqueStoreItemIds(items)
    ensures var r := PutStoreItem(items, item);
      && UniqueStoreItemIds(r)
      && item in r
      && (forall x :: x in r <==> x == item || (x in items && x.id != item.id))
      && StoreItemIds(r) == StoreItemIds(items) + {item.id}
  {
    var r := PutStoreItem(items, item);
    match FindStoreItem(items, item.id)
    case Some(k) =>
      assert r[k] == item;
      forall a, b | 0 <= a < b < |r| ensures r[a].id != r[b].id {
        assert r[a].id == items[a].id && r[b].id == items[b].id;
      }
      forall x | x in items && x.id != item.id ensures x in r {
        var j :| 0 <= j < |items| && items[j] == x;
        assert r[j] == x;
      }
      forall x | x in r && x != item ensures x in items && x.id != item.id {
        var j :| 0 <= j < |r| && r[j] == x;
        assert j != k && items[j] == x;
        assert items[j].id != items[k].id;
      }
      assert StoreItemIds(r) == StoreItemIds(items) + {item.id} by {
        assert item.id in StoreItemIds(items) by { assert items[k] in items; }
      }
    case None =>
      forall a, b | 0 <= a < b < |r| ensures r[a].id != r[b].id {
        if b == |items| {
          assert items[a] in items;
        }
      }
  }

  /** The fields a catalog write takes from its input: the type, the trimmed name and
      description, the species restriction, the normalized prices, the photo, the tags and
      whether the item is on sale. */
  ghost predicate TakesInput(item: StoreItem, input: StoreItemInput) {
    var prices := NormalizeStoreItemPrices(input.itemType, input.pricePetCoins, input.priceCoins);
    && item.itemType == input.itemType
    && item.name == Trim(input.name)
    && item.description == Trim(input.description)
    && item.speciesRestriction == input.speciesRestriction
    && item.pricePetCoins == prices.pricePetCoins
    && item.priceCoins == prices.priceCoins
    && item.photoId == input.photoId
    && item.tags == input.tags
    && item.isActive == input.isActive
  }

  /** The record `addCustomStoreItem` stores. */
  function NewCustomStoreItem(input: StoreItemInput, uuid: string, now: string): StoreItem {
    var prices := NormalizeStoreItemPrices(input.itemType, input.pricePetCoins, input.priceCoins);
    StoreItem(CreateCustomStoreItemId(input.name, uuid), input.itemType, Trim(input.name), Trim(input.description),
              input.speciesRestriction, prices.pricePetCoins, prices.priceCoins, input.photoId, input.tags,
              input.isActive, now, now)
  }

  /** `addCustomStoreItem`: a name is required; the item gets a custom id and is put. */
  function AddStoreItemOutcome(t: Tables, input: StoreItemInput, uuid: string, now: string): Result<Step<StoreItem>> {
    if IsBlank(input.name) then Err(InvalidInput)
    else
      var item := NewCustomStoreItem(input, uuid, now);
      Ok(Step(t.(storeItems := PutStoreItem(t.storeItems, item)), item))
  }

  /** The item added takes its fields from the input (trimmed name, never blank, and
      trimmed description; normalized prices, so one currency and no negative price), gets
      a "custom-" id and one timestamp, and is put in the catalog; nothing else changes. */
  lemma AddStoreItemEffects(t: Tables, input: StoreItemInput, uuid: string, now: string)
    ensures var r := AddStoreItemOutcome(t, input, uuid, now);
      && (r.Err? <==> AllWhitespace(input.name))
      && (r.Err? ==> r.code == InvalidInput)
      && (r.Ok? ==>
            var item := r.value.value;
            && TakesInput(item, input)
            && PricedInOneCurrency(item) && item.pricePetCoins >= 0 && item.priceCoins >= 0
            && item.name != []
            && item.id == CreateCustomStoreItemId(input.name, uuid) && item.id[..7] == "custom-"
            && item.createdAt == item.updatedAt == now
            && r.value.tables == t.(storeItems := PutStoreItem(t.storeItems, item)))
  {
    BlankIffAllWhitespace(input.name);
  }

  /** A pet card offered at 22 PetCoins and 99 Coins is stored at 22 PetCoins and 0 Coins,
      as economyService.test.ts expects. */
  lemma PetCardCustomItemPrices(t: Tables, uuid: string, now: string)
    ensures var input := StoreItemInput(PetCard, "Custom Pet Card", "Pet item test", Some(Cat), 22, 99,
                                        None, ["pet"], true);
      var r := AddStoreItemOutcome(t, input, uuid, now);
      r.Ok? && r.value.value.pricePetCoins == 22 && r.value.value.priceCoins == 0
  {
    var input := StoreItemInput(PetCard, "Custom Pet Card", "Pet item test", Some(Cat), 22, 99,
                                None, ["pet"], true);
    assert !IsWhitespace(input.name[0]);
    AddStoreItemEffects(t, input, uuid, now);
  }

  /** `updateStoreItem`: a name is required and the id must exist; the item keeps its id
      and creation time and takes every other field from the input. */
  function UpdateStoreItemOutcome(t: Tables, id: string, input: StoreItemInput, now: string): Result<Step<StoreItem>> {
    if IsBlank(input.name) then Err(InvalidInput)
    else match FindStoreItem(t.storeItems, id)
      case None => Err(NotFound)
      case Some(k) =>
        var existing := t.storeItems[k];
        var prices := NormalizeStoreItemPrices(input.itemType, input.pricePetCoins, input.priceCoins);
        var updated := StoreItem(existing.id, input.itemType, Trim(input.name), Trim(input.description),
                                 input.speciesRestriction, prices.pricePetCoins, prices.priceCoins,
                                 input.photoId, input.tags, input.isActive, existing.createdAt, now);
        Ok(Step(t.(storeItems := PutStoreItem(t.storeItems, updated)), updated))
  }

  /** INVALID_INPUT for a blank name comes before NOT_FOUND for a missing id; an update
      replaces the item in place, keeping its id and creation time and taking every other
      field from the input, with normalized prices. */
  lemma UpdateStoreItemEffects(t: Tables, id: string, input: StoreItemInput, now: string)
    ensures var r := UpdateStoreItemOutcome(t, id, input, now);
      && (r == Err(InvalidInput) <==> AllWhitespace(input.name))
      && (r == Err(NotFound) <==> !AllWhitespace(input.name) && id !in StoreItemIds(t.storeItems))
      && (r.Ok? ==>
            var k := FindStoreItem(t.storeItems, id).value;
            var item := r.value.value;
            && item.id == id && item.createdAt == t.storeItems[k].createdAt && item.updatedAt == now
            && TakesInput(item, input)
            && PricedInOneCurrency(item) && item.pricePetCoins >= 0 && item.priceCoins >= 0
            && item.name != []
            && r.value.tables == t.(storeItems := t.storeItems[k := item]))
  {
    BlankIffAllWhitespace(input.name);
  }

  /** `storeItems.delete(id)`: every item but the one with the key, in order. */
  function WithoutStoreItem(items: seq<StoreItem>, id: string): seq<StoreItem> {
    if items == [] then []
    else if items[0].id == id then WithoutStoreItem(items[1..], id)
    else [items[0]] + WithoutStoreItem(items[1..], id)
  }

  /** Exactly the entries with another key remain, so none has the key. */
  lemma {:induction false} WithoutStoreItemMembers(items: seq<StoreItem>, id: string)
    ensures forall x :: x in WithoutStoreItem(items, id) <==> x in items && x.id != id
    ensures id !in StoreItemIds(WithoutStoreItem(items, id))
  {
    if items != [] {
      WithoutStoreItemMembers(items[1..], id);
      assert items == [items[0]] + items[1..];
    }
  }

  /** Unique keys stay unique. */
  lemma {:induction false} WithoutStoreItemUnique(items: seq<StoreItem>, id: string)
    requires UniqueStoreItemIds(items)
    ensures UniqueStoreItemIds(WithoutStoreItem(items, id))
  {
    if items != [] {
      var tail := items[1..];
      UniqueStoreItemsTail(items);
      WithoutStoreItemUnique(tail, id);
      if items[0].id != id {
        WithoutStoreItemMembers(tail, id);
        UniqueStoreItemsCons(items[0], WithoutStoreItem(tail, id));
      }
    }
  }

  /** Dropping the first of uniquely keyed records leaves them unique, none sharing its key. */
  lemma UniqueStoreItemsTail(items: seq<StoreItem>)
    requires items != [] && UniqueStoreItemIds(items)
    ensures UniqueStoreItemIds(items[1..]) && forall x :: x in items[1..] ==> x.id != items[0].id
  {
    var tail := items[1..];
    forall i, j | 0 <= i < j < |tail| ensures tail[i].id != tail[j].id {
      assert tail[i] == items[i + 1] && tail[j] == items[j + 1];
    }
    forall x | x in tail ensures x.id != items[0].id {
      var k :| 0 <= k < |tail| && tail[k] == x;
      assert items[k + 1] == x;
    }
  }

  /** A record whose key no other has can be put in front of uniquely keyed records. */
  lemma UniqueStoreItemsCons(first: StoreItem, rest: seq<StoreItem>)
    requires UniqueStoreItemIds(rest) && forall x :: x in rest ==> x.id != first.id
    ensures UniqueStoreItemIds([first] + rest)
  {
    var r := [first] + rest;
    forall i, j | 0 <= i < j < |r| ensures r[i].id != r[j].id {
      assert r[j] == rest[j - 1] && r[j] in rest;
      if i > 0 {
        assert r[i] == rest[i - 1];
      }
    }
  }

  /** `deleteStoreItem`: NOT_FOUND for a missing id, otherwise the item is removed. */
  function DeleteStoreItemOutcome(t: Tables, id: string): Result<Step<()>> {
    if id !in StoreItemIds(t.storeItems) then Err(NotFound)
    else Ok(Step(t.(storeItems := WithoutStoreItem(t.storeItems, id)), ()))
  }

  /** Deleting fails with NOT_FOUND exactly for a missing id; otherwise the catalog loses
      that item and keeps every other, and nothing else changes. */
  lemma DeleteStoreItemSpec(t: Tables, id: string)
    ensures var r := DeleteStoreItemOutcome(t, id);
      && (r.Err? <==> id !in StoreItemIds(t.storeItems))
      && (r.Err? ==> r.code == NotFound)
      && (r.Ok? ==>
            && id !in StoreItemIds(r.value.tables.storeItems)
            && (forall x :: x in r.value.tables.storeItems <==> x in t.storeItems && x.id != id)
            && r.value.tables == t.(storeItems := r.value.tables.storeItems)
            && (ValidTables(t) ==> ValidTables(r.value.tables)))
  {
    WithoutStoreItemMembers(t.storeItems, id);
    if ValidTables(t) {
      WithoutStoreItemUnique(t.storeItems, id);
    }
  }

  // ----- the service -----

  /** `ensureWallet` of both services: the stored wallet, or a new empty one that is added. */
  method EnsureWallet(db: Database, profileId: string, now: string) returns (w: Wallet)
    requires db.Valid()
    modifies db
    ensures db.Valid()
    ensures w == Wallets.WalletOf(old(db.wallets), profileId, now)
    ensures db.Snapshot() == old(db.Snapshot()).(wallets := Wallets.EnsureWallet(old(db.wallets), profileId, 0, 0, now))
    ensures profileId in db.wallets && db.wallets[profileId] == w
  {
    if profileId in db.wallets {
      return db.wallets[profileId];
    }
    w := Wallet(profileId, 0, 0, now);
    db.wallets := db.wallets[profileId := w];
  }

  class EconomyService {
    const db: Database

    constructor (db: Database)
      ensures this.db == db
    {
      this.db := db;
    }

    method GetWallet(profileId: string, now: string) returns (w: Wallet)
      requires db.Valid()
      modifies db
      ensures db.Valid()
      ensures w == Wallets.WalletOf(old(db.wallets), profileId, now)
      ensures db.Snapshot() == old(db.Snapshot()).(wallets := Wallets.EnsureWallet(old(db.wallets), profileId, 0, 0, now))
    {
      w := EnsureWallet(db, profileId, now);
    }

    method PurchaseStoreItem(profileId: string, storeItemId: string, petId: string, rowId: string,
                             logId: string, now: string)
      returns (r: Result<PurchaseResult>)
      requires db.Valid()
      requires petId !in PetIds(db.pets) && rowId !in InventoryIds(db.inventoryItems)
      requires logId !in LogIds(db.transactionLogs)
      modifies db
      ensures db.Valid()
      ensures Committed(PurchaseOutcome(old(db.Snapshot()), profileId, storeItemId, petId, rowId, logId, now),
                        old(db.Snapshot()), db.Snapshot(), r)
    {
      ghost var before := db.Snapshot();
      var found := FindStoreItem(db.storeItems, storeItemId);
      if found.None? || !db.storeItems[found.value].isActive {
        return Err(NotFound);
      }
      var storeItem := db.storeItems[found.value];
      var saved := db.Snapshot();
      var wallet := EnsureWallet(db, profileId, now);
      if wallet.petCoins < storeItem.pricePetCoins || wallet.coins < storeItem.priceCoins {
        db.Rollback(saved);
        return Err(InsufficientFunds);
      }
      PurchaseKeepsValid(before, profileId, storeItemId, petId, rowId, logId, now);
      var result := CommitPurchase(profileId, storeItem, wallet, petId, rowId, logId, now);
      r := Ok(result);
    }

    /** The body of the purchase transaction after the balance check. */
    method CommitPurchase(profileId: string, storeItem: StoreItem, wallet: Wallet, petId: string,
                          rowId: string, logId: string, now: string)
      returns (result: PurchaseResult)
      modifies db
      ensures Step(db.Snapshot(), result)
           == PurchaseCommit(old(db.Snapshot()), profileId, storeItem, wallet, petId, rowId, logId, now)
    {
      if storeItem.itemType == PetCard {
        result := CommitPetPurchase(profileId, storeItem, wallet, petId, logId, now);
      } else {
        result := CommitItemPurchase(profileId, storeItem, wallet, rowId, logId, now);
      }
    }

    method CommitPetPurchase(profileId: string, storeItem: StoreItem, wallet: Wallet, petId: string,
                             logId: string, now: string)
      returns (result: PurchaseResult)
      modifies db
      ensures Step(db.Snapshot(), result)
           == PetPurchaseCommit(old(db.Snapshot()), profileId, storeItem, wallet, petId, logId, now)
    {
      var updatedWallet := wallet.(petCoins := wallet.petCoins - storeItem.pricePetCoins,
                                   coins := wallet.coins - storeItem.priceCoins, updatedAt := now);
      var pet := PurchasedPet(storeItem, profileId, petId, now);
      var transactionLog := CreateTransaction(logId, profileId, BuyPet, -storeItem.pricePetCoins,
                                              -storeItem.priceCoins, PetPurchaseNote(storeItem.name), now);
      db.wallets, db.pets, db.transactionLogs :=
        db.wallets[profileId := updatedWallet], db.pets + [pet], db.transactionLogs + [transactionLog];
      result := PurchaseResult(storeItem, updatedWallet, Some(pet.id), None, transactionLog);
    }

    method CommitItemPurchase(profileId: string, storeItem: StoreItem, wallet: Wallet, rowId: string,
                              logId: string, now: string)
      returns (result: PurchaseResult)
      modifies db
      ensures Step(db.Snapshot(), result)
           == ItemPurchaseCommit(old(db.Snapshot()), profileId, storeItem, wallet, rowId, logId, now)
    {
      var updatedWallet := wallet.(petCoins := wallet.petCoins - storeItem.pricePetCoins,
                                   coins := wallet.coins - storeItem.priceCoins, updatedAt := now);
      var existing := FindInventoryRow(db.inventoryItems, profileId, storeItem.id);
      var rows: seq<InventoryItem>;
      var item: InventoryItem;
      if existing.Some? {
        var row := db.inventoryItems[existing.value];
        item := row.(quantity := row.quantity + 1, updatedAt := now);
        rows := db.inventoryItems[existing.value := item];
      } else {
        item := InventoryItem(rowId, profileId, storeItem.id, 1, now, now);
        rows := db.inventoryItems + [item];
      }
      var transactionLog := CreateTransaction(logId, profileId, BuyItem, -storeItem.pricePetCoins,
                                              -storeItem.priceCoins, ItemPurchaseNote(storeItem.name), now);
      db.wallets, db.inventoryItems, db.transactionLogs :=
        db.wallets[profileId := updatedWallet], rows, db.transactionLogs + [transactionLog];
      result := PurchaseResult(storeItem, updatedWallet, None, Some(item), transactionLog);
    }

    method AdjustWallet(profileId: string, deltaPetCoins: int, deltaCoins: int, notes: string,
                        logId: string, now: string)
      returns (r: Result<AdjustWalletResult>)
      requires db.Valid()
      requires logId !in LogIds(db.transactionLogs)
      modifies db
      ensures db.Valid()
      ensures Committed(AdjustWalletOutcome(old(db.Snapshot()), profileId, deltaPetCoins, deltaCoins, notes, logId, now),
                        old(db.Snapshot()), db.Snapshot(), r)
    {
      if IsBlank(notes) {
        return Err(InvalidInput);
      }
      ghost var before := db.Snapshot();
      var wallet := EnsureWallet(db, profileId, now);
      var updatedWallet := wallet.(petCoins := wallet.petCoins + deltaPetCoins,
                                   coins := wallet.coins + deltaCoins, updatedAt := now);
      db.wallets := db.wallets[profileId := updatedWallet];
      var transactionLog := CreateTransaction(logId, profileId, Adjustment, deltaPetCoins, deltaCoins, notes, now);
      AppendLogKeepsIds(db.transactionLogs, transactionLog);
      db.transactionLogs := db.transactionLogs + [transactionLog];
      r := Ok(AdjustWalletResult(updatedWallet, transactionLog));
      assert db.wallets == Wallets.AdjustWallet(before.wallets, profileId, deltaPetCoins, deltaCoins, now);
    }

    method AdjustInventory(profileId: string, itemId: string, quantityDelta: int, notes: string,
                           rowId: string, logId: string, now: string)
      returns (r: Result<AdjustInventoryResult>)
      requires db.Valid()
      requires rowId !in InventoryIds(db.inventoryItems) && logId !in LogIds(db.transactionLogs)
      modifies db
      ensures db.Valid()
      ensures Committed(AdjustInventoryOutcome(old(db.Snapshot()), profileId, itemId, quantityDelta, notes,
                                               rowId, logId, now),
                        old(db.Snapshot()), db.Snapshot(), r)
    {
      if IsBlank(notes) {
        return Err(InvalidInput);
      }
      var found := FindStoreItem(db.storeItems, itemId);
      if found.None? {
        return Err(NotFound);
      }
      var storeItem := db.storeItems[found.value];
      AdjustInventoryKeepsValid(db.Snapshot(), profileId, itemId, quantityDelta, notes, rowId, logId, now);
      var existing := FindInventoryRow(db.inventoryItems, profileId, itemId);
      var rows: seq<InventoryItem>;
      var inventoryItem: InventoryItem;
      if existing.Some? {
        var row := db.inventoryItems[existing.value];
        inventoryItem := row.(quantity := Max(0, row.quantity + quantityDelta), updatedAt := now);
        rows := db.inventoryItems[existing.value := inventoryItem];
      } else {
        inventoryItem := InventoryItem(rowId, profileId, itemId, Max(0, quantityDelta), now, now);
        rows := db.inventoryItems + [inventoryItem];
      }
      var transactionLog := CreateTransaction(logId, profileId, Adjustment, 0, 0,
                                              InventoryNote(notes, storeItem.name, quantityDelta), now);
      db.inventoryItems, db.transactionLogs := rows, db.transactionLogs + [transactionLog];
      r := Ok(AdjustInventoryResult(inventoryItem, transactionLog));
    }

    method AddCustomStoreItem(input: StoreItemInput, uuid: string, now: string) returns (r: Result<StoreItem>)
      requires db.Valid()
      modifies db
      ensures db.Valid()
      ensures Committed(AddStoreItemOutcome(old(db.Snapshot()), input, uuid, now), old(db.Snapshot()), db.Snapshot(), r)
    {
      if IsBlank(input.name) {
        return Err(InvalidInput);
      }
      var storeItem := NewCustomStoreItem(input, uuid, now);
      PutStoreItemSpec(db.storeItems, storeItem);
      db.storeItems := PutStoreItem(db.storeItems, storeItem);
      r := Ok(storeItem);
    }

    method UpdateStoreItem(id: string, input: StoreItemInput, now: string) returns (r: Result<StoreItem>)
      requires db.Valid()
      modifies db
      ensures db.Valid()
      ensures Committed(UpdateStoreItemOutcome(old(db.Snapshot()), id, input, now), old(db.Snapshot()), db.Snapshot(), r)
    {
      if IsBlank(input.name) {
        return Err(InvalidInput);
      }
      var found := FindStoreItem(db.storeItems, id);
      if found.None? {
        return Err(NotFound);
      }
      var existing := db.storeItems[found.value];
      var prices := NormalizeStoreItemPrices(input.itemType, input.pricePetCoins, input.priceCoins);
      var updatedItem := existing.(itemType := input.itemType, name := Trim(input.name),
                                   description := Trim(input.description),
                                   speciesRestriction := input.speciesRestriction,
                                   pricePetCoins := prices.pricePetCoins, priceCoins := prices.priceCoins,
                                   photoId := input.photoId, tags := input.tags, isActive := input.isActive,
                                   updatedAt := now);
      PutStoreItemSpec(db.storeItems, updatedItem);
      db.storeItems := PutStoreItem(db.storeItems, updatedItem);
      r := Ok(updatedItem);
    }

    method DeleteStoreItem(id: string) returns (r: Result<()>)
      requires db.Valid()
      modifies db
      ensures db.Valid()
      ensures Committed(DeleteStoreItemOutcome(old(db.Snapshot()), id), old(db.Snapshot()), db.Snapshot(), r)
    {
      var found := FindStoreItem(db.storeItems, id);
      if found.None? {
        return Err(NotFound);
      }
      WithoutStoreItemMembers(db.storeItems, id);
      WithoutStoreItemUnique(db.storeItems, id);
      db.storeItems := WithoutStoreItem(db.storeItems, id);
      r := Ok(());
    }
  }
}
