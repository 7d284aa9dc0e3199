/** The persisted records of the pet game (src/models) and the rows rebuilt from their
    construction sites (wallets, inventory items, breeding events, profiles). Monetary
    amounts, quantities and breed counts are unbounded integers. */
module Models {
  import opened Collections

  datatype Species = Cat | Dog | Bird | Bunny | OtherSpecies | Mixed
  datatype Gender = Male | Female | UnknownGender
  datatype StoreItemType = PetCard | Supply | BreedingSession
  datatype TransactionKind = BuyPet | BuyItem | BreedingKind | Adjustment

  /** `null` in a nullable source field is `None`; an absent optional `notes` is `None` too. */
  datatype Pet = Pet(
    id: string,
    profileId: string,
    name: string,
    species: Species,
    gender: Gender,
    wasWild: bool,
    tags: seq<string>,
    breedCount: int,
    photoId: Option<string>,
    notes: Option<string>,
    createdAt: string,
    updatedAt: string)

  datatype StoreItem = StoreItem(
    id: string,
    itemType: StoreItemType,
    name: string,
    description: string,
    speciesRestriction: Option<Species>,
    pricePetCoins: int,
    priceCoins: int,
    photoId: Option<string>,
    tags: seq<string>,
    isActive: bool,
    createdAt: string,
    updatedAt: string)

  datatype InventoryItem = InventoryItem(
    id: string,
    profileId: string,
    itemId: string,
    quantity: int,
    createdAt: string,
    updatedAt: string)

  datatype Wallet = Wallet(profileId: string, petCoins: int, coins: int, updatedAt: string)

  datatype TransactionLog = TransactionLog(
    id: string,
    profileId: string,
    kind: TransactionKind,
    deltaPetCoins: int,
    deltaCoins: int,
    notes: string,
    createdAt: string)

  datatype BreedingEvent = BreedingEvent(
    id: string,
    profileId: string,
    parentAId: string,
    parentBId: string,
    babyPetId: string,
    usedBreedingSessionItem: bool,
    createdAt: string)

  datatype Profile = Profile(id: string, name: string, createdAt: string, updatedAt: string)

  /** The `code` of an EconomyError or BreedingError. */
  datatype ErrorCode = NotFound | InvalidInput | InsufficientFunds | BreedingSessionRequired

  /** A service call either returns a value or throws a coded error. */
  datatype Result<T> = Ok(value: T) | Err(code: ErrorCode)

  function Max(a: int, b: int): int {
    if a >= b then a else b
  }

  /** The pricing rule of the catalog: pet cards cost only PetCoins, everything else only Coins. */
  predicate PricedInOneCurrency(item: StoreItem) {
    if item.itemType == PetCard then item.priceCoins == 0 else item.pricePetCoins == 0
  }
}
