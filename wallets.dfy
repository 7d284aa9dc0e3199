/** WalletRepo: one wallet per profile, keyed by profileId, holding PetCoins and Coins. */
module Wallets {
  import opened Collections
  import opened Models
  import opened Store

  /** The wallet table after `ensureForProfile`: an existing wallet is left as it is,
      otherwise one with the given opening balances is added. */
  function EnsureWallet(wallets: map<string, Wallet>, profileId: string, petCoins: int, coins: int,
                        now: string): map<string, Wallet>
  {
    if profileId in wallets then wallets
    else wallets[profileId := Wallet(profileId, petCoins, coins, now)]
  }

  /** The wallet `ensureWallet` hands back: the stored one, or a new one with 0/0. */
  function WalletOf(wallets: map<string, Wallet>, profileId: string, now: string): Wallet {
    if profileId in wallets then wallets[profileId] else Wallet(profileId, 0, 0, now)
  }

  /** The wallet table after `adjust`: the profile's wallet (created empty when missing)
      gains both deltas. There is no floor: a wallet may go negative. */
  function AdjustWallet(wallets: map<string, Wallet>, profileId: string, deltaPetCoins: int,
                        deltaCoins: int, now: string): map<string, Wallet>
  {
    var w := WalletOf(wallets, profileId, now);
    wallets[profileId := w.(petCoins := w.petCoins + deltaPetCoins, coins := w.coins + deltaCoins,
                            updatedAt := now)]
  }

  /** After `ensureForProfile` the profile has a wallet; an existing one is returned
      unchanged, whatever opening balances the caller asked for. No other wallet changes. */
  lemma EnsureWalletSpec(wallets: map<string, Wallet>, profileId: string, petCoins: int, coins: int,
                         now: string)
    ensures var r := EnsureWallet(wallets, profileId, petCoins, coins, now);
      && profileId in r
      && (profileId in wallets ==> r == wallets)
      && (profileId !in wallets ==> r[profileId] == Wallet(profileId, petCoins, coins, now))
      && r.Keys == wallets.Keys + {profileId}
      && forall k :: k in wallets ==> r[k] == wallets[k]
  {
  }

  /** Ensuring twice is ensuring once, even with different opening balances. */
  lemma EnsureWalletIdempotent(wallets: map<string, Wallet>, profileId: string, p1: int, c1: int,
                               t1: string, p2: int, c2: int, t2: string)
    ensures var once := EnsureWallet(wallets, profileId, p1, c1, t1);
      EnsureWallet(once, profileId, p2, c2, t2) == once
  {
  }

  /** `adjust` moves the profile's balances by exactly the deltas, from 0/0 when the
      profile had no wallet, and touches no other profile's wallet. */
  lemma AdjustWalletSpec(wallets: map<string, Wallet>, profileId: string, deltaPetCoins: int,
                         deltaCoins: int, now: string)
    ensures var r := AdjustWallet(wallets, profileId, deltaPetCoins, deltaCoins, now);
      && profileId in r
      && r[profileId].petCoins == (if profileId in wallets then wallets[profileId].petCoins else 0) + deltaPetCoins
      && r[profileId].coins == (if profileId in wallets then wallets[profileId].coins else 0) + deltaCoins
      && r[profileId].updatedAt == now
      && r.Keys == wallets.Keys + {profileId}
      && forall k :: k in wallets && k != profileId ==> r[k] == wallets[k]
  {
  }

  /** Two adjustments equal one by the summed deltas, whether or not the profile had a
      wallet: adjusting by a delta and then by its negation leaves both balances where
      they started (0 for a profile that had no wallet). */
  lemma AdjustWalletCompose(wallets: map<string, Wallet>, profileId: string, p1: int, c1: int,
                            t1: string, p2: int, c2: int, t2: string)
    ensures AdjustWallet(AdjustWallet(wallets, profileId, p1, c1, t1), profileId, p2, c2, t2)
         == AdjustWallet(wallets, profileId, p1 + p2, c1 + c2, t2)
  {
  }

  /** Both writers keep the table keyed by profileId. */
  lemma WalletWritesKeepKeying(wallets: map<string, Wallet>, profileId: string, petCoins: int, coins: int,
                               now: string)
    requires WalletsKeyedByProfile(wallets)
    ensures WalletsKeyedByProfile(EnsureWallet(wallets, profileId, petCoins, coins, now))
    ensures WalletsKeyedByProfile(AdjustWallet(wallets, profileId, petCoins, coins, now))
  {
  }

  class WalletRepo {
    const db: Database

    constructor (db: Database)
      ensures this.db == db
    {
      this.db := db;
    }

    method GetByProfileId(profileId: string) returns (w: Option<Wallet>)
      ensures w.Some? <==> profileId in db.wallets
      ensures w.Some? ==> w.value == db.wallets[profileId]
    {
      if profileId in db.wallets {
        w := Some(db.wallets[profileId]);
      } else {
        w := None;
      }
    }

    /** Missing opening balances default to 0. */
    method EnsureForProfile(profileId: string, petCoins: Option<int>, coins: Option<int>, now: string)
      returns (w: Wallet)
      requires db.Valid()
      modifies db
      ensures db.Valid()
      ensures db.Snapshot() == old(db.Snapshot()).(wallets :=
        EnsureWallet(old(db.wallets), profileId, GetOr(petCoins, 0), GetOr(coins, 0), now))
      ensures profileId in db.wallets && w == db.wallets[profileId]
    {
      WalletWritesKeepKeying(db.wallets, profileId, GetOr(petCoins, 0), GetOr(coins, 0), now);
      var existing := GetByProfileId(profileId);
      if existing.Some? {
        return existing.value;
      }
      w := Wallet(profileId, GetOr(petCoins, 0), GetOr(coins, 0), now);
      db.wallets := db.wallets[profileId := w];
    }

    method Adjust(profileId: string, deltaPetCoins: int, deltaCoins: int, now: string)
      returns (w: Wallet)
      requires db.Valid()
      modifies db
      ensures db.Valid()
      ensures db.Snapshot() == old(db.Snapshot()).(wallets :=
        AdjustWallet(old(db.wallets), profileId, deltaPetCoins, deltaCoins, now))
      ensures profileId in db.wallets && w == db.wallets[profileId]
    {
      WalletWritesKeepKeying(db.wallets, profileId, deltaPetCoins, deltaCoins, now);
      var existing := EnsureForProfile(profileId, None, None, now);
      w := existing.(petCoins := existing.petCoins + deltaPetCoins, coins := existing.coins + deltaCoins,
                     updatedAt := now);
      db.wallets := db.wallets[profileId := w];
    }
  }
}
