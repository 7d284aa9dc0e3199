/** PetRepo: the pets of a profile, created with defaults, patched and deleted by id. */
module Pets {
  import opened Collections
  import opened Text
  import opened Models
  import opened Store

  /** The input of `create`; the optional fields are `None` when omitted. */
  datatype CreatePetInput = CreatePetInput(
    profileId: string,
    name: string,
    species: Species,
    gender: Gender,
    wasWild: bool,
    tags: Option<seq<string>>,
    breedCount: Option<int>,
    photoId: Option<string>,
    notes: Option<string>)

  /** The input of `update`: every field may be omitted, `photoId` may be set to null, and
      `notes` may be passed as `undefined` (`Some(None)`), which deletes the stored notes. */
  datatype PetChanges = PetChanges(
    profileId: Option<string>,
    name: Option<string>,
    species: Option<Species>,
    gender: Option<Gender>,
    wasWild: Option<bool>,
    tags: Option<seq<string>>,
    breedCount: Option<int>,
    photoId: Option<Option<string>>,
    notes: Option<Option<string>>)

  const NoChanges := PetChanges(None, None, None, None, None, None, None, None, None)

  /** The record `create` stores: trimmed name, no tags, no breedings and no photo unless
      given, and one timestamp for both creation and update. */
  function NewPet(input: CreatePetInput, id: string, now: string): Pet {
    Pet(id, input.profileId, Trim(input.name), input.species, input.gender, input.wasWild,
        GetOr(input.tags, []), GetOr(input.breedCount, 0), input.photoId, input.notes, now, now)
  }

  /** `update` as written: `changes` always holds a `name` key, `undefined` when the caller
      gave none, and Dexie deletes a property whose new value is `undefined`. The missing
      name is modelled as the empty string. */
  function ApplyPetChangesAsWritten(p: Pet, c: PetChanges, now: string): Pet {
    ApplyPetChanges(p, c, now).(name := if c.name.Some? then Trim(c.name.value) else "")
  }

  /** A breed-count adjustment, which passes only `breedCount`, erases the pet's name. */
  lemma BreedCountUpdateErasesName()
    ensures var p := Pet("p1", "profile", "Tom", Cat, Male, false, [], 1, None, None, "t0", "t0");
      && ApplyPetChangesAsWritten(p, NoChanges.(breedCount := Some(2)), "t1").name == ""
      && p.name == "Tom"
  {
  }

  /** As written, a patch without a name leaves the pet with no name, and otherwise agrees
      field for field with the intended patch below; a patch that gives a name is the
      intended patch. */
  lemma AsWrittenDropsOmittedName(p: Pet, c: PetChanges, now: string)
    ensures var w := ApplyPetChangesAsWritten(p, c, now);
      && (c.name.None? ==> w.name == "" && w.(name := p.name) == ApplyPetChanges(p, c, now))
      && (c.name.Some? ==> w == ApplyPetChanges(p, c, now))
  {
  }

  /** `update` as intended: the given fields replace the stored ones (a given name is
      trimmed), the others are kept, and `updatedAt` becomes `now`. */
  function ApplyPetChanges(p: Pet, c: PetChanges, now: string): Pet {
    Pet(p.id,
        GetOr(c.profileId, p.profileId),
        if c.name.Some? then Trim(c.name.value) else p.name,
        GetOr(c.species, p.species),
        GetOr(c.gender, p.gender),
        GetOr(c.wasWild, p.wasWild),
        GetOr(c.tags, p.tags),
        GetOr(c.breedCount, p.breedCount),
        GetOr(c.photoId, p.photoId),
        GetOr(c.notes, p.notes),
        p.createdAt,
        now)
  }

  /** As intended, a patch changes exactly the fields it gives: an omitted field keeps its
      stored value, a given one takes the new value (a name trimmed), and id and creation
      time stay. */
  lemma PatchKeepsOmittedFields(p: Pet, c: PetChanges, now: string)
    ensures var r := ApplyPetChanges(p, c, now);
      && r.id == p.id && r.createdAt == p.createdAt && r.updatedAt == now
      && r.name == (if c.name.Some? then Trim(c.name.value) else p.name)
      && r.profileId == GetOr(c.profileId, p.profileId)
      && r.species == GetOr(c.species, p.species)
      && r.gender == GetOr(c.gender, p.gender)
      && r.wasWild == GetOr(c.wasWild, p.wasWild)
      && r.tags == GetOr(c.tags, p.tags)
      && r.breedCount == GetOr(c.breedCount, p.breedCount)
      && r.photoId == GetOr(c.photoId, p.photoId)
      && r.notes == GetOr(c.notes, p.notes)
  {
  }

  /** Notes passed as `undefined`, as a form with an empty notes box sends them, are
      deleted; notes omitted are kept, and notes given replace the stored ones. */
  lemma UndefinedNotesCleared(p: Pet, c: PetChanges, now: string)
    ensures c.notes == Some(None) ==> ApplyPetChangesAsWritten(p, c, now).notes == None
    ensures c.notes == None ==> ApplyPetChangesAsWritten(p, c, now).notes == p.notes
    ensures c.notes.Some? && c.notes.value.Some? ==> ApplyPetChangesAsWritten(p, c, now).notes == c.notes.value
  {
  }

  /** As intended, an empty patch only refreshes `updatedAt`: identity and creation time
      never change. */
  lemma NoChangesKeepsPet(p: Pet, now: string)
    ensures ApplyPetChanges(p, NoChanges, now) == p.(updatedAt := now)
  {
  }

  /** As written, an empty patch also erases the name. */
  lemma NoChangesAsWrittenErasesName(p: Pet, now: string)
    ensures ApplyPetChangesAsWritten(p, NoChanges, now) == p.(name := "", updatedAt := now)
  {
  }

  /** Applying the same intended patch twice is applying it once (trimming is idempotent);
      the as-written patch is idempotent too. */
  lemma ApplyPetChangesIdempotent(p: Pet, c: PetChanges, now: string)
    ensures ApplyPetChanges(ApplyPetChanges(p, c, now), c, now) == ApplyPetChanges(p, c, now)
  {
    var once := ApplyPetChanges(p, c, now);
    if c.name.Some? {
      TrimIdempotent(c.name.value);
      assert once.name == Trim(c.name.value);
    }
    assert ApplyPetChanges(once, c, now).name == once.name;
  }

  /** The as-written patch applied twice is the as-written patch applied once. */
  lemma AsWrittenIdempotent(p: Pet, c: PetChanges, now: string)
    ensures ApplyPetChangesAsWritten(ApplyPetChangesAsWritten(p, c, now), c, now)
         == ApplyPetChangesAsWritten(p, c, now)
  {
    var once := ApplyPetChangesAsWritten(p, c, now);
    if c.name.Some? {
      TrimIdempotent(c.name.value);
    }
    assert ApplyPetChangesAsWritten(once, c, now).name == once.name;
  }

  /** `pets.delete(id)`: every pet but the one with the key, in order. */
  function WithoutPet(pets: seq<Pet>, id: string): seq<Pet> {
    if pets == [] then []
    else if pets[0].id == id then WithoutPet(pets[1..], id)
    else [pets[0]] + WithoutPet(pets[1..], id)
  }

  /** Exactly the entries with another key remain, so none has the key. */
  lemma {:induction false} WithoutPetMembers(pets: seq<Pet>, id: string)
    ensures forall x :: x in WithoutPet(pets, id) <==> x in pets && x.id != id
    ensures id !in PetIds(WithoutPet(pets, id))
  {
    if pets != [] {
      WithoutPetMembers(pets[1..], id);
      assert pets == [pets[0]] + pets[1..];
    }
  }

  /** Unique keys stay unique. */
  lemma {:induction false} WithoutPetUnique(pets: seq<Pet>, id: string)
    requires UniquePetIds(pets)
    ensures UniquePetIds(WithoutPet(pets, id))
  {
    if pets != [] {
      var tail := pets[1..];
      UniquePetsTail(pets);
      WithoutPetUnique(tail, id);
      if pets[0].id != id {
        WithoutPetMembers(tail, id);
        UniquePetsCons(pets[0], WithoutPet(tail, id));
      }
    }
  }

  /** Dropping the first of uniquely keyed records leaves them unique, none sharing its key. */
  lemma UniquePetsTail(pets: seq<Pet>)
    requires pets != [] && UniquePetIds(pets)
    ensures UniquePetIds(pets[1..]) && forall x :: x in pets[1..] ==> x.id != pets[0].id
  {
    var tail := pets[1..];
    forall i, j | 0 <= i < j < |tail| ensures tail[i].id != tail[j].id {
      assert tail[i] == pets[i + 1] && tail[j] == pets[j + 1];
    }
    forall x | x in tail ensures x.id != pets[0].id {
      var k :| 0 <= k < |tail| && tail[k] == x;
      assert pets[k + 1] == x;
    }
  }

  /** A record whose key no other has can be put in front of uniquely keyed records. */
  lemma UniquePetsCons(first: Pet, rest: seq<Pet>)
    requires UniquePetIds(rest) && forall x :: x in rest ==> x.id != first.id
    ensures UniquePetIds([first] + rest)
  {
    var r := [first] + rest;
    forall i, j | 0 <= i < j < |r| ensures r[i].id != r[j].id {
      assert r[j] == rest[j - 1] && r[j] in rest;
      if i > 0 {
        assert r[i] == rest[i - 1];
      }
    }
  }

  /** A pet with a fresh key is found at the end, and the keys stay unique. */
  lemma AppendPet(pets: seq<Pet>, pet: Pet)
    requires pet.id !in PetIds(pets)
    ensures FindPet(pets + [pet], pet.id) == Some(|pets|)
    ensures UniquePetIds(pets) ==> UniquePetIds(pets + [pet])
  {
    var r := pets + [pet];
    forall k | 0 <= k < |pets| ensures r[k].id != pet.id {
      assert r[k] == pets[k] && pets[k] in pets;
    }
    assert r[|pets|] == pet;
  }

  predicate CreatedLe(a: Pet, b: Pet) {
    StrLe(a.createdAt, b.createdAt)
  }

  lemma CreatedLeIsTotalPreorder()
    ensures TotalPreorder(CreatedLe)
  {
    forall a: Pet, b: Pet ensures CreatedLe(a, b) || CreatedLe(b, a) {
      StrLeTotal(a.createdAt, b.createdAt);
    }
    forall a: Pet, b: Pet, c: Pet | CreatedLe(a, b) && CreatedLe(b, c) ensures CreatedLe(a, c) {
      StrLeTransitive(a.createdAt, b.createdAt, c.createdAt);
    }
  }

  /** `listByProfile`: the profile's pets, each as often as stored, oldest first. */
  function PetsOfProfile(pets: seq<Pet>, profileId: string): (r: seq<Pet>)
    ensures SortedBy(r, CreatedLe)
    ensures forall x :: multiset(r)[x] == if x.profileId == profileId then multiset(pets)[x] else 0
    ensures forall x :: x in r <==> x in pets && x.profileId == profileId
  {
    var mine := Filter(pets, (p: Pet) => p.profileId == profileId);
    FilterMultiset(pets, (p: Pet) => p.profileId == profileId);
    CreatedLeIsTotalPreorder();
    SortBySorted(mine, CreatedLe);
    var r := SortBy(mine, CreatedLe);
    assert forall x :: x in r <==> x in multiset(mine);
    r
  }

  class PetRepo {
    const db: Database

    constructor (db: Database)
      ensures this.db == db
    {
      this.db := db;
    }

    method ListByProfile(profileId: string) returns (pets: seq<Pet>)
      ensures pets == PetsOfProfile(db.pets, profileId)
    {
      pets := PetsOfProfile(db.pets, profileId);
    }

    method GetById(id: string) returns (pet: Option<Pet>)
      ensures pet.None? <==> id !in PetIds(db.pets)
      ensures pet.Some? ==> pet.value in db.pets && pet.value.id == id
    {
      match FindPet(db.pets, id)
      case Some(i) => pet := Some(db.pets[i]);
      case None => pet := None;
    }

    /** `id` and `now` stand for `createId()` and `nowIso()`. */
    method Create(input: CreatePetInput, id: string, now: string) returns (pet: Pet)
      requires db.Valid()
      requires id !in PetIds(db.pets)
      modifies db
      ensures db.Valid()
      ensures pet == NewPet(input, id, now)
      ensures db.Snapshot() == old(db.Snapshot()).(pets := old(db.pets) + [pet])
      ensures FindPet(db.pets, id) == Some(|old(db.pets)|)
    {
      pet := NewPet(input, id, now);
      AppendPet(db.pets, pet);
      db.pets := db.pets + [pet];
    }

    /** The patch as written, so an omitted name is erased; a pet that does not exist is
        left alone, as Dexie's `update` does. */
    method Update(id: string, changes: PetChanges, now: string)
      requires db.Valid()
      modifies db
      ensures db.Valid()
      ensures db.Snapshot() == old(db.Snapshot()).(pets := db.pets)
      ensures match FindPet(old(db.pets), id)
        case Some(i) => db.pets == old(db.pets)[i := ApplyPetChangesAsWritten(old(db.pets)[i], changes, now)]
        case None => db.pets == old(db.pets)
    {
      match FindPet(db.pets, id)
      case Some(i) =>
        db.pets := db.pets[i := ApplyPetChangesAsWritten(db.pets[i], changes, now)];
      case None =>
    }

    method Delete(id: string)
      requires db.Valid()
      modifies db
      ensures db.Valid()
      ensures db.Snapshot() == old(db.Snapshot()).(pets := WithoutPet(old(db.pets), id))
      ensures id !in PetIds(db.pets)
      ensures forall p :: p in db.pets <==> p in old(db.pets) && p.id != id
    {
      WithoutPetMembers(db.pets, id);
      WithoutPetUnique(db.pets, id);
      db.pets := WithoutPet(db.pets, id);
    }
  }
}
