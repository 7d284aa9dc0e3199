# Pet Breeder Cards: economy, breeding and storage core

Pet Breeder Cards is a browser game. A family keeps profiles, and each profile owns pet
cards, a wallet of Pet Coins and Coins, and an inventory of store items. This project
models the core of the game in Dafny:

- The store: buying a pet card or an item, manual wallet and inventory adjustments with an
  audit log entry, and management of the store catalog (`EconomyService`).
- Breeding: two parents of one profile make a baby pet. The breeding session is paid with a
  token from the inventory or bought on the spot (`BreedingService`).
- The four repositories the services and pages use: inventory rows keyed by
  (profile, item), wallets keyed by profile, pets, and breeding events.
- First-run seeding of the default profile and the starter catalog.
- The error log kept in local storage.

The embedded document database is the class `Store.Database`, with one field per table.
A service call is specified by a pure function from the tables before the call to either
an error code or the new tables and the returned value (`Result<Step<T>>`). The method
that performs the call changes the database and proves that it matches that function
(`Committed`). On an error the tables are rolled back, as the database transaction does.
`ValidTables` collects the key invariants of the schema in `src/db/database.ts`:
- unique primary keys;
- wallets stored under their own profile id;
- at most one inventory row per (profile, item).

Every writing method keeps `ValidTables`. Each property is proved on the specification
function.

Modules, in dependency order:
- `Collections`: Option, first-match lookup, filtering, stable insertion sort.
- `Text`: trim, code-point (character) string order, integer printing.
- `Models`: the records.
- `Store`: tables, lookups, puts and the `Database` class.
- `Wallets`, `Inventory`, `Pets`, `BreedingEvents`: the repositories.
- `Economy`, `Breeding`: the services.
- `Seed`.
- `ErrorLog`.

## Model

| member | source | states |
|---|---|---|
| Collections.FindFirst | src/db/services/breedingService.ts:155-161 | the index found is the first whose element satisfies the test; None means no element does |
| Collections.Filter | src/db/services/breedingService.ts:148 | the result holds exactly the elements that pass the test, and is no longer than the input |
| Collections.FilterMultiset | src/db/services/breedingService.ts:148 | every passing element is kept as often as it occurs; no other element is kept |
| Collections.SortBy | src/db/services/breedingService.ts:58-67 | the sorted copy is a permutation of the input |
| Collections.SortBySorted | src/db/services/breedingService.ts:58-67 | under a total preorder the copy is sorted |
| Collections.SortByHeadIsLeast | src/db/services/breedingService.ts:165 | the first element of the sorted copy is a least element of the input |
| Text.TrimIsSlice | src/db/services/economyService.ts:106 | `trim` returns a contiguous slice of its input |
| Text.TrimDropsWhitespace | src/db/services/economyService.ts:106 | only whitespace is cut, on both sides |
| Text.TrimEndsNotWhitespace | src/db/services/economyService.ts:106 | a non-empty trimmed string starts and ends with a non-whitespace character |
| Text.BlankIffAllWhitespace | src/db/services/economyService.ts:264 | `!notes.trim()` holds exactly when the notes are all whitespace |
| Text.TrimIdempotent | src/db/repos/petRepo.ts:41 | trimming twice is trimming once |
| Text.TrimStartAppend | src/db/services/economyService.ts:93-101 | text after a string that is not all whitespace does not change what `trimStart` removes |
| Economy.InventoryNoteTrimmed | src/db/services/economyService.ts:335-341 | the stored adjustment note loses only the reason's leading whitespace |
| Text.StrLeTotal | src/db/services/breedingService.ts:66 | the id order used to break price ties is total |
| Text.StrLeTransitive | src/db/services/breedingService.ts:66 | the id order is transitive |
| Text.StrLeAntisymmetric | src/db/services/breedingService.ts:66 | two ids that compare both ways are equal |
| Text.IntToString | src/db/services/economyService.ts:340 | the printed quantity change is non-empty and starts with '-' exactly when it is negative |
| Text.NatToStringRoundTrip | src/db/services/economyService.ts:340 | the printed digits read back as the number |
| Store.FindPet | src/db/repos/petRepo.ts:32-34 | `pets.get(id)` finds the pet with that key, or reports that none has it |
| Store.FindStoreItem | src/db/services/economyService.ts:148-154 | `storeItems.get(id)` finds the item with that key, or reports that none has it |
| Store.FindInventoryRow | src/db/repos/inventoryRepo.ts:22-24 | the compound-index lookup finds the first row of that profile and item, or reports that none exists |
| Store.PutStoredPet | src/db/services/breedingService.ts:255-256 | putting a stored pet back replaces it in place and keeps the keys unique |
| Store.PutStoredRow | src/db/services/breedingService.ts:211 | putting a stored inventory row back replaces it in place |
| Store.ReplaceRowKeepsKeys | src/db/services/breedingService.ts:206-211 | an in-place row update that keeps its keys keeps the inventory keys unique |
| Store.AppendRowKeepsKeys | src/db/repos/inventoryRepo.ts:39-46 | appending a row with a fresh id and a new (profile, item) pair keeps the keys unique |
| Store.AppendLogKeepsIds | src/db/services/economyService.ts:248 | appending a log entry with a fresh id keeps the log ids unique |
| Store.AppendEventKeepsIds | src/db/services/breedingService.ts:281 | appending an event with a fresh id keeps the event ids unique |
| Store.Database.Rollback | src/db/services/economyService.ts:163-172 | an aborted transaction leaves every table as it was when the transaction began |
| Wallets.EnsureWalletSpec | src/db/repos/walletRepo.ts:28-42 | an existing wallet is left alone; otherwise a wallet with the given balances is added under that profile; no other wallet changes |
| Wallets.EnsureWalletIdempotent | src/db/repos/walletRepo.ts:28-42 | ensuring a wallet twice is ensuring it once, whatever the second call's balances |
| Wallets.AdjustWalletSpec | src/db/repos/walletRepo.ts:44-54 | the balances move by exactly the deltas, from zero when the wallet is missing; other wallets are unchanged |
| Wallets.AdjustWalletCompose | src/db/repos/walletRepo.ts:44-54 | two adjustments equal one adjustment by the summed deltas, also for a profile that had no wallet |
| Wallets.WalletWritesKeepKeying | src/db/repos/walletRepo.ts:28-54 | both writes keep every wallet stored under its own profile id |
| Wallets.WalletRepo.GetByProfileId | src/db/repos/walletRepo.ts:24-26 | returns the stored wallet of the profile, and None exactly when there is none |
| Wallets.WalletRepo.EnsureForProfile | src/db/repos/walletRepo.ts:28-42 | the wallets table becomes `EnsureWallet` of the old one, with omitted balances as 0; the stored wallet is returned; nothing else changes |
| Wallets.WalletRepo.Adjust | src/db/repos/walletRepo.ts:44-54 | the wallets table becomes `AdjustWallet` of the old one; the new wallet is returned |
| Inventory.ApplyDeltaQuantity | src/db/repos/inventoryRepo.ts:26-49 | the upserted row belongs to the profile and item, and its quantity is max(0, old + delta), with old 0 for a new row |
| Inventory.ApplyDeltaExistingRow | src/db/repos/inventoryRepo.ts:30-37 | an existing row keeps its id, keys and creation time and changes in place; every other row is untouched |
| Inventory.ApplyDeltaNewRow | src/db/repos/inventoryRepo.ts:39-48 | a missing row is appended with the fresh id and max(0, delta) |
| Inventory.ApplyDeltaKeepsKeysUnique | src/db/repos/inventoryRepo.ts:26-49 | the upsert keeps primary keys and (profile, item) pairs unique |
| Inventory.ApplyDeltaKeepsFloor | src/db/repos/inventoryRepo.ts:31-43 | the upsert never makes a quantity negative |
| Inventory.ApplyDeltasFromEmpty | src/db/repos/inventoryRepo.ts:26-49 | repeated upserts on a missing row add exactly one row, whose quantity is the floored running sum |
| Inventory.FloorFoldNonNegative | src/db/repos/inventoryRepo.ts:31 | the floored running sum of any deltas is never negative |
| Inventory.FoldOnFoundRow | src/db/repos/inventoryRepo.ts:30-37 | repeated upserts on an existing row change only that row, to the floored running sum |
| Inventory.RowsOfProfile | src/db/repos/inventoryRepo.ts:18-20 | exactly the rows of the profile are listed |
| Inventory.RowsOfProfileCounts | src/db/repos/inventoryRepo.ts:18-20 | each row of the profile is listed as often as it is stored, and no other row is listed |
| Inventory.InventoryRepo.ListByProfile | src/db/repos/inventoryRepo.ts:18-20 | returns the rows of the profile in table order |
| Inventory.InventoryRepo.GetByProfileAndItem | src/db/repos/inventoryRepo.ts:22-24 | returns a row of that profile and item, and None exactly when none is stored |
| Inventory.InventoryRepo.UpsertQuantity | src/db/repos/inventoryRepo.ts:26-49 | the inventory table becomes the `ApplyDelta` result; the floor and the keys are kept; no other table changes |
| Pets.BreedCountUpdateErasesName | src/db/repos/petRepo.ts:56-63 | as written, an update that passes only a breed count leaves the pet without its name |
| Pets.PatchKeepsOmittedFields | src/db/repos/petRepo.ts:56-63 | the intended update: each omitted field keeps its stored value, each given field takes the new value with a given name trimmed, and the id and creation time stay |
| Pets.NoChangesKeepsPet | src/db/repos/petRepo.ts:56-63 | the intended (corrected) patch: an empty patch only refreshes `updatedAt` |
| Pets.NoChangesAsWrittenErasesName | src/db/repos/petRepo.ts:56-63 | as written, an empty patch also erases the stored name |
| Pets.ApplyPetChangesIdempotent | src/db/repos/petRepo.ts:56-63 | the intended (corrected) patch applied twice is the patch applied once |
| Pets.AsWrittenIdempotent | src/db/repos/petRepo.ts:56-63 | as written, too, applying a patch twice is applying it once |
| Pets.WithoutPetMembers | src/db/repos/petRepo.ts:65-67 | delete keeps exactly the pets with another id |
| Pets.WithoutPetUnique | src/db/repos/petRepo.ts:65-67 | delete keeps the ids unique |
| Pets.AppendPet | src/db/repos/petRepo.ts:52 | an added pet with a fresh id is found at the end, and the ids stay unique |
| Pets.CreatedLeIsTotalPreorder | src/db/repos/petRepo.ts:28-30 | ordering by creation time is a total preorder |
| Pets.PetsOfProfile | src/db/repos/petRepo.ts:28-30 | the listing is sorted by creation time and is a permutation of the profile's pets |
| Pets.PetRepo.ListByProfile | src/db/repos/petRepo.ts:28-30 | returns `PetsOfProfile` of the table |
| Pets.PetRepo.GetById | src/db/repos/petRepo.ts:32-34 | returns the pet with that id, and None exactly when none has it |
| Pets.PetRepo.Create | src/db/repos/petRepo.ts:36-54 | stores and returns the new pet with a trimmed name and empty tags, zero breedings and no photo unless given; nothing else changes |
| Pets.AsWrittenDropsOmittedName | src/db/repos/petRepo.ts:56-63 | as written, any patch without a name leaves the pet with no name and otherwise agrees with the intended patch; a patch that gives a name is the intended patch |
| Pets.PetRepo.Update | src/db/repos/petRepo.ts:56-63 | the pet with that id is patched in place as the code is written, so an omitted name is erased and notes passed as `undefined` are deleted; a missing id changes nothing |
| Pets.UndefinedNotesCleared | src/db/repos/petRepo.ts:56-63 | notes passed as `undefined` are deleted, omitted notes are kept, and given notes replace the stored ones |
| Pets.PetRepo.Delete | src/db/repos/petRepo.ts:65-67 | exactly the pet with that id is removed |
| BreedingEvents.EventCreatedLeIsTotalPreorder | src/db/repos/breedingRepo.ts:34-36 | ordering by creation time is a total preorder |
| BreedingEvents.EventsOfProfile | src/db/repos/breedingRepo.ts:34-36 | the listing is sorted by creation time and is a permutation of the profile's events |
| BreedingEvents.EventsOfPet | src/db/repos/breedingRepo.ts:38-42 | the listing is sorted and is a permutation of the events in which the pet is parent A, parent B or the baby |
| BreedingEvents.RecordedEventIsListedForProfile | src/db/repos/breedingRepo.ts:20-36 | a recorded event appears in its profile's listing |
| BreedingEvents.RecordedEventIsListedForPets | src/db/repos/breedingRepo.ts:20-42 | a recorded event appears in the listing of each parent and of the baby |
| BreedingEvents.BreedingRepo.Create | src/db/repos/breedingRepo.ts:20-32 | appends and returns the event built from the input; nothing else changes |
| BreedingEvents.BreedingRepo.ListByProfile | src/db/repos/breedingRepo.ts:34-36 | returns `EventsOfProfile` of the table |
| BreedingEvents.BreedingRepo.ListByPetId | src/db/repos/breedingRepo.ts:38-42 | returns `EventsOfPet` of the table |
| Economy.SlugifyIsSlug | src/db/services/economyService.ts:103-110 | a slug is non-empty, holds only `[a-z0-9]` and single dashes, and starts and ends with a letter or digit |
| Economy.SlugifyKeepsLettersAndDigits | src/db/services/economyService.ts:103-110 | a slug keeps every letter and digit of the lower-cased name in order, and is "item" when there is none |
| Economy.CollapseNonSlugRuns | src/db/services/economyService.ts:107 | each run of other characters becomes one dash: no double dash, and the letters and digits are kept |
| Economy.StripKeepsShape | src/db/services/economyService.ts:108 | dropping the edge dashes leaves letters or digits at both ends and the same letters and digits |
| Economy.TrimKeepsSlugChars | src/db/services/economyService.ts:106 | trimming removes no letter or digit |
| Economy.CreateCustomStoreItemId | src/db/services/economyService.ts:112-114 | the custom id is "custom-", then the slug of the name, then a dash, then the first eight characters of the fresh id |
| Economy.ToPetSpecies | src/db/services/economyService.ts:67-72 | a bought pet has the card's species restriction, or "other" when there is none |
| Economy.PurchasedPet | src/db/services/economyService.ts:190-203 | the bought pet has the card's name, tags and photo, its species, unknown gender, is not wild, has no breedings, is noted "Purchased from store: <name>" and has one timestamp |
| Economy.NormalizeStoreItemPrices | src/db/services/economyService.ts:116-128 | a pet card costs only Pet Coins and anything else only Coins; a negative price in the kept currency becomes 0 and a non-negative one is kept |
| Economy.NormalizeIdempotent | src/db/services/economyService.ts:116-128 | normalizing normalized prices changes nothing |
| Economy.AddOneIsUpsertOfOne | src/db/services/economyService.ts:215-245 | delivering a bought item is the repository upsert with delta 1 |
| Economy.AddOneKeepsKeysUnique | src/db/services/economyService.ts:215-245 | delivering an item keeps the inventory keys unique |
| Economy.PurchaseErrors | src/db/services/economyService.ts:148-176 | NOT_FOUND exactly when no active item has the id; INSUFFICIENT_FUNDS exactly when it exists and one balance is below its price; no other error |
| Economy.PurchaseFound | src/db/services/economyService.ts:160-184 | a successful purchase found an active, affordable item and commits it against the ensured wallet |
| Economy.PurchaseDebits | src/db/services/economyService.ts:173-184 | the wallet is debited by the item's prices and stays non-negative; one log entry records the change; profiles, catalog and events are untouched |
| Economy.PurchaseDelivers | src/db/services/economyService.ts:190-245 | a pet card adds the new pet and logs `buy_pet`; any other item adds one to the inventory and logs `buy_item` |
| Economy.PurchaseKeepsValid | src/db/services/economyService.ts:160-261 | a purchase keeps the table invariants |
| Economy.AdjustWalletEffects | src/db/services/economyService.ts:263-294 | blank notes are INVALID_INPUT; otherwise the balances move by exactly the deltas, the log records them with the trimmed notes, and only wallets and logs change |
| Economy.AdjustInventoryEffects | src/db/services/economyService.ts:296-352 | blank notes are INVALID_INPUT; an unknown item is NOT_FOUND; otherwise the row becomes max(0, old + delta), wallets are untouched, and the profile gets an `adjustment` log entry that moves no money and whose note is the reason, the item name and the signed change |
| Economy.AdjustInventoryKeepsValid | src/db/services/economyService.ts:296-352 | an inventory adjustment keeps the table invariants |
| Economy.PutStoreItemSpec | src/db/services/economyService.ts:373-378 | putting an item replaces the one with its id or adds it; ids stay unique |
| Economy.AddStoreItemEffects | src/db/services/economyService.ts:354-382 | a blank name is INVALID_INPUT; otherwise the stored item has the custom id built from the name, the trimmed name and description, the input's normalized prices, type, species restriction, photo, tags and active flag, and one timestamp |
| Economy.PetCardCustomItemPrices | src/db/services/economyService.test.ts:164-183 | a pet card offered at 22 Pet Coins and 99 Coins is stored at 22 and 0 |
| Economy.UpdateStoreItemEffects | src/db/services/economyService.ts:384-415 | a blank name is INVALID_INPUT and an unknown id NOT_FOUND; otherwise the item changes in place, keeping its id and creation time and taking the trimmed name and description, the normalized prices and every other field from the input |
| Economy.DeleteStoreItemSpec | src/db/services/economyService.ts:417-423 | an unknown id is NOT_FOUND; otherwise exactly that item is removed and the invariants are kept |
| Economy.EnsureWallet | src/db/services/economyService.ts:137-146 | returns the existing wallet or adds and returns a zero wallet; nothing else changes |
| Economy.EconomyService.GetWallet | src/db/services/economyService.ts:156-158 | returns the ensured wallet |
| Economy.EconomyService.PurchaseStoreItem | src/db/services/economyService.ts:160-261 | the call commits `PurchaseOutcome`, or throws its error with every table rolled back |
| Economy.EconomyService.AdjustWallet | src/db/services/economyService.ts:263-294 | the call commits `AdjustWalletOutcome`, or throws its error with no table changed |
| Economy.EconomyService.AdjustInventory | src/db/services/economyService.ts:296-352 | the call commits `AdjustInventoryOutcome`, or throws its error with no table changed |
| Economy.EconomyService.AddCustomStoreItem | src/db/services/economyService.ts:354-382 | the call commits `AddStoreItemOutcome`, or throws INVALID_INPUT with no table changed |
| Economy.EconomyService.UpdateStoreItem | src/db/services/economyService.ts:384-415 | the call commits `UpdateStoreItemOutcome`, or throws its error with no table changed |
| Economy.EconomyService.DeleteStoreItem | src/db/services/economyService.ts:417-423 | the call commits `DeleteStoreItemOutcome`, or throws NOT_FOUND with no table changed |
| Breeding.SessionLeIsTotalPreorder | src/db/services/breedingService.ts:58-67 | the session order (Coins, then Pet Coins, then id) is a total preorder |
| Breeding.SortBreedingSessionItems | src/db/services/breedingService.ts:58-67 | the sorted copy is ordered cheapest first and is a permutation of the input |
| Breeding.SessionItems | src/db/services/breedingService.ts:147-148 | exactly the active session items, cheapest first |
| Breeding.GetBabySpecies | src/db/services/breedingService.ts:111-112 | the baby takes the parents' species when they agree, and is mixed otherwise |
| Breeding.DedupSpec | src/db/services/breedingService.ts:114-115 | the set keeps every tag once, in the order of first occurrence |
| Breeding.BabyTagsSpec | src/db/services/breedingService.ts:114-115 | the baby's tags are the parents' tags and "baby", without duplicates, in first-seen order |
| Breeding.GetParentPetSpec | src/db/services/breedingService.ts:135-141 | a parent is found exactly when a pet with that id belongs to the profile; otherwise NOT_FOUND |
| Breeding.InventoryByItemIdLastWins | src/db/services/breedingService.ts:154 | the item-id map holds the last row with each item id |
| Breeding.ProfileRowLookup | src/db/services/breedingService.ts:153-154 | with unique keys, the map of a profile's rows agrees with the compound-index lookup |
| Breeding.FirstInStock | src/db/services/breedingService.ts:155-161 | the option found is the first session item with stock, and None means none has stock |
| Breeding.ResolveFallback | src/db/services/breedingService.ts:143-167 | NOT_FOUND exactly when no active session item exists; otherwise the fallback is a cheapest one |
| Breeding.ResolveTokenExists | src/db/services/breedingService.ts:153-161 | a token option is found exactly when the profile holds a session item with stock |
| Breeding.ResolveTokenIsFirst | src/db/services/breedingService.ts:155-161 | the token option is the cheapest session item with stock, paired with the profile's row for it |
| Breeding.TokenCheckNeverFires | src/db/services/breedingService.ts:200-204 | the check for a missing or empty token row can never fail after resolution |
| Breeding.BreedingInputErrors | src/db/services/breedingService.ts:170-191 | INVALID_INPUT exactly for the same pet twice or a forbidden cross-species pair; NOT_FOUND exactly for a missing parent or no session item |
| Breeding.PaymentStage | src/db/services/breedingService.ts:191-243 | after the parent checks only NOT_FOUND, BREEDING_SESSION_REQUIRED or INSUFFICIENT_FUNDS can occur, and a token always pays |
| Breeding.BreedingPaymentErrors | src/db/services/breedingService.ts:216-229 | BREEDING_SESSION_REQUIRED exactly when no token is held and auto-buy is off; INSUFFICIENT_FUNDS exactly when auto-buy is on and the cheapest session is unaffordable |
| Breeding.BreedingPathChoice | src/db/services/breedingService.ts:200-243 | a token is used exactly when one is held; otherwise the session is bought |
| Breeding.BreedingTokenPath | src/db/services/breedingService.ts:200-214 | using a token takes one from the cheapest stocked session row, moves no money and only ensures the wallet |
| Breeding.BreedingPurchasePath | src/db/services/breedingService.ts:215-243 | buying debits the cheapest session's prices, keeps both balances non-negative, leaves the inventory alone and logs the deltas |
| Breeding.BreedingParents | src/db/services/breedingService.ts:170-189 | a successful breeding had two different parents of the profile, of one species unless cross-species is allowed |
| Breeding.BreedingParentsUpdated | src/db/services/breedingService.ts:245-256 | each parent comes back with one more breeding |
| Breeding.BreedingPetsTable | src/db/services/breedingService.ts:255-272 | the pets table has both parents replaced in place and the baby appended |
| Breeding.BreedingRecords | src/db/services/breedingService.ts:258-292 | the baby is named "Baby of A + B" with the note "Bred from A + B.", has no breedings, unknown gender, no photo, the parents' species and tags and one timestamp; the event names parents and baby; one `breeding` entry is logged; profiles and catalog are untouched |
| Breeding.FreeSessionLoggedAsInventoryUse | src/db/services/breedingService.ts:287-290 | a session bought at price zero is logged as "used from inventory" |
| Breeding.BreedingKeepsValid | src/db/services/breedingService.ts:169-309 | a breeding keeps the table invariants |
| Breeding.BreedingService.RunBreeding | src/db/services/breedingService.ts:169-309 | the call commits `RunBreedingOutcome`, or throws its error with every table rolled back |
| Breeding.BreedingService.PayAndCommit | src/db/services/breedingService.ts:192-304 | the transaction after the checks commits `SessionOutcome` or rolls back |
| Breeding.BreedingService.PayForSession | src/db/services/breedingService.ts:200-243 | the payment writes exactly `PaySession`, and nothing on an error |
| Seed.StarterIdsDistinct | src/db/seed.ts:10-203 | the starter catalog has no duplicate id |
| Seed.StarterItemsPriced | src/db/seed.ts:10-203 | every starter entry is priced in one currency, with no negative price |
| Seed.DefaultNameTrimmed | src/db/seed.ts:6 | the default profile name "Family" is stored unchanged by trimming |
| Seed.SeedProfile | src/db/seed.ts:217-225 | a profile is created exactly when there is none: the "Family" profile, whose wallet is the stored one or a new zero wallet |
| Seed.SeedTouchesOnly | src/db/seed.ts:210-247 | seeding writes only profiles, wallets and store items |
| Seed.SeedStoreItems | src/db/seed.ts:227-241 | afterwards every starter id is stored, with unique ids; the count is the number of starter ids that were missing |
| Seed.SeedKeepsOtherItems | src/db/seed.ts:227-241 | items with other ids, and stored non-refreshed starters, are untouched |
| Seed.SeedLeavesSettledItems | src/db/seed.ts:227-241 | a stored starter is overwritten only when its name or description differs: when all hold the seeded text, the store items are unchanged and nothing is inserted |
| Seed.SeedIdempotent | src/db/seed.ts:210-247 | seeding a seeded database changes nothing and reports no profile and no item |
| Seed.StarterSeedIdempotent | src/db/seed.ts:210-247 | with the starter catalog, a second seed is a no-op |
| Seed.SeedKeepsValid | src/db/seed.ts:210-247 | seeding keeps the table invariants |
| Seed.SeedDatabase | src/db/seed.ts:210-247 | the database becomes `SeedOutcome` of the old one with the starter catalog, and the report is returned |
| Seed.SeedCatalogInto | src/db/seed.ts:227-241 | the loop over the catalog leaves the store items of the fold and counts the insertions |
| ErrorLog.TruncateSpec | src/utils/errorLog.ts:25-30 | a value that fits is kept; a longer one becomes its first max characters plus "..." |
| ErrorLog.TruncateIdempotent | src/utils/errorLog.ts:25-30 | truncating a truncated value changes nothing |
| ErrorLog.SanitizeKeys | src/utils/errorLog.ts:32-50 | a key is kept exactly when some entry under it holds a string, number, boolean or null |
| ErrorLog.SanitizeValues | src/utils/errorLog.ts:38-47 | with distinct keys, strings are stored truncated and the other kept values unchanged |
| ErrorLog.SanitizeBoundsStrings | src/utils/errorLog.ts:39-40 | no stored string is longer than 1503 characters |
| ErrorLog.SanitizeMetadata | src/utils/errorLog.ts:32-50 | the loop builds the sanitized map, and no metadata gives the empty map |
| ErrorLog.NormalizeBounds | src/utils/errorLog.ts:52-86 | the message is never over 1503 characters and is empty only for a thrown empty string; a stack appears only for an Error with a non-empty stack; a name only for Errors and named objects |
| ErrorLog.NormalizeShortString | src/utils/errorLog.ts:63-69 | a short thrown string is the message as is, with no name and no stack |
| ErrorLog.NewEntryFields | src/utils/errorLog.ts:139-157 | the source defaults to `caught`; the context is truncated and a fitting one kept; no metadata gives an empty map |
| ErrorLog.CappedSpec | src/utils/errorLog.ts:124 | the stored list keeps at most 50 entries, the first ones |
| ErrorLog.LoggedNewestFirst | src/utils/errorLog.ts:159-160 | a new entry becomes the first stored one, ahead of the older entries that fit |
| ErrorLog.TwoLogsNewestFirst | src/utils/errorLog.test.ts:5-19 | after two logs the newer entry comes first |
| ErrorLog.ErrorLogStorage.GetRecentAppErrors | src/utils/errorLog.ts:130-133 | returns the first max(0, limit) stored entries |
| ErrorLog.ErrorLogStorage.GetDefaultRecentAppErrors | src/utils/errorLog.ts:130-133 | with no limit given, the first 20 stored entries, or all when fewer |
| ErrorLog.ErrorLogStorage.ClearAppErrors | src/utils/errorLog.ts:135-137 | the log becomes empty |
| ErrorLog.ErrorLogStorage.LogAppError | src/utils/errorLog.ts:139-162 | the entry is built from the inputs, stored first and capped at 50, and returned |

## Left out

- Ids and timestamps: `createId()` and `nowIso()` become caller-supplied parameters. A new id is required to be absent from its table, which a random UUID is in practice. Every timestamp of one call is the same `now`.
- Concurrency: the model is sequential. It does not show two transactions interleaving, or `purchaseStoreItem` reading the item before its transaction begins.
- Numbers are unbounded integers: floating point, NaN and the `-0` normalisation of the breeding log deltas are not modelled.
- `toLowerCase` is modelled for ASCII letters and the two non-ASCII characters whose lower case contains an ASCII letter. Other characters are kept, which changes neither slugs nor session tags.
- Lengths are counted in characters, not UTF-16 code units.
- Listing order: the model lists in table (insertion) order, stable under the `createdAt` sort. IndexedDB returns an index range ordered by primary key within equal index keys, so the order of rows with equal keys may differ. Membership, multiplicity and sortedness are the same either way.
- `localeCompare` on ids is modelled as code-point (character) lexicographic order; locale collation, and the UTF-16 code-unit order that differs from it for characters above U+FFFF, are not modelled.
- `EXTRA_BREED_CARD_ITEM_ID` comes from `src/db/constants.ts`, which is not part of this model. The model uses the value "extra-breed-card".
- `profileRepo.count` and `profileRepo.create` are inlined into the seed. `src/db/repos/profileRepo.ts` and `storeRepo.ts` are otherwise not part of this model.
- `readErrorLogFromStorage` (JSON parsing, the entry filter and the `window` checks) is not modelled. The stored list is a field of `ErrorLogStorage`.
- `writeErrorLogToStorage`: the update event it dispatches is not modelled.
- `registerGlobalErrorLogging` is not modelled. It only wires browser events to `logAppError`, whose sources and metadata the model covers.
- Pets.PetRepo.Update: the name property Dexie deletes is modelled as the empty string, since a `Pet` always has a name field. Of the other fields, `notes` can be passed as `undefined` in the model (and is then deleted), and a `photoId` that is deleted and one set to null are both `None`; the source would also delete a required field such as `species` or `tags` passed as `undefined`, which the model does not represent.
- ErrorLog.NormalizeUnknownError: a thrown object's `name` and `message` are taken as already converted by `String(...)`. The conversion itself is not modelled.
- ErrorLog.SanitizeMetadata: the metadata object is a sequence of its entries with distinct keys, in `Object.entries` order. `undefined`, object and function values are one "other" case.

## Findings

| source | as written | input that shows it | evidently intended | confidence | as-written member | corrected member |
|---|---|---|---|---|---|---|
| src/db/repos/petRepo.ts:56-63 | `changes` always holds `name: input.name?.trim()`, which is `undefined` when no name is given, and `pets.update` then deletes the stored name | `update(id, { breedCount: 2 })` on a pet named "Tom" leaves it with no name | an omitted name keeps the stored name, like every other omitted field | medium, not executed | Pets.AsWrittenDropsOmittedName | Pets.PatchKeepsOmittedFields |
