/** BreedingRepo: the log of breedings, listed per profile or per pet, oldest first. */
module BreedingEvents {
  import opened Collections
  import opened Text
  import opened Models
  import opened Store

  predicate EventCreatedLe(a: BreedingEvent, b: BreedingEvent) {
    StrLe(a.createdAt, b.createdAt)
  }

  lemma EventCreatedLeIsTotalPreorder()
    ensures TotalPreorder(EventCreatedLe)
  {
    forall a: BreedingEvent, b: BreedingEvent ensures EventCreatedLe(a, b) || EventCreatedLe(b, a) {
      StrLeTotal(a.createdAt, b.createdAt);
    }
    forall a: BreedingEvent, b: BreedingEvent, c: BreedingEvent | EventCreatedLe(a, b) && EventCreatedLe(b, c)
      ensures EventCreatedLe(a, c)
    {
      StrLeTransitive(a.createdAt, b.createdAt, c.createdAt);
    }
  }

  /** The pet took part in the breeding, as a parent or as the baby. */
  predicate Involves(e: BreedingEvent, petId: string) {
    e.parentAId == petId || e.parentBId == petId || e.babyPetId == petId
  }

  /** `listByProfile`: the profile's events, each as often as stored, oldest first. */
  function EventsOfProfile(events: seq<BreedingEvent>, profileId: string): (r: seq<BreedingEvent>)
    ensures SortedBy(r, EventCreatedLe)
    ensures forall e :: multiset(r)[e] == if e.profileId == profileId then multiset(events)[e] else 0
  {
    var mine := Filter(events, (e: BreedingEvent) => e.profileId == profileId);
    FilterMultiset(events, (e: BreedingEvent) => e.profileId == profileId);
    EventCreatedLeIsTotalPreorder();
    SortBySorted(mine, EventCreatedLe);
    SortBy(mine, EventCreatedLe)
  }

  /** `listByPetId`: the events the pet took part in, across all profiles, oldest first. */
  function EventsOfPet(events: seq<BreedingEvent>, petId: string): (r: seq<BreedingEvent>)
    ensures SortedBy(r, EventCreatedLe)
    ensures forall e :: multiset(r)[e] == if Involves(e, petId) then multiset(events)[e] else 0
  {
    var mine := Filter(events, (e: BreedingEvent) => Involves(e, petId));
    FilterMultiset(events, (e: BreedingEvent) => Involves(e, petId));
    EventCreatedLeIsTotalPreorder();
    SortBySorted(mine, EventCreatedLe);
    SortBy(mine, EventCreatedLe)
  }

  /** A recorded breeding is listed for its profile. */
  lemma RecordedEventIsListedForProfile(events: seq<BreedingEvent>, e: BreedingEvent)
    ensures e in EventsOfProfile(events + [e], e.profileId)
  {
    assert e in multiset(events + [e]);
    assert e in multiset(EventsOfProfile(events + [e], e.profileId));
  }

  /** A recorded breeding is listed for each of the three pets it involves. */
  lemma RecordedEventIsListedForPets(events: seq<BreedingEvent>, e: BreedingEvent)
    ensures e in EventsOfPet(events + [e], e.parentAId)
    ensures e in EventsOfPet(events + [e], e.parentBId)
    ensures e in EventsOfPet(events + [e], e.babyPetId)
  {
    assert e in multiset(events + [e]);
    assert e in multiset(EventsOfPet(events + [e], e.parentAId));
    assert e in multiset(EventsOfPet(events + [e], e.parentBId));
    assert e in multiset(EventsOfPet(events + [e], e.babyPetId));
  }

  class BreedingRepo {
    const db: Database

    constructor (db: Database)
      ensures this.db == db
    {
      this.db := db;
    }

    /** `id` and `now` stand for `createId()` and `nowIso()`. */
    method Create(profileId: string, parentAId: string, parentBId: string, babyPetId: string,
                  usedBreedingSessionItem: bool, id: string, now: string)
      returns (event: BreedingEvent)
      requires db.Valid()
      requires id !in EventIds(db.breedingEvents)
      modifies db
      ensures db.Valid()
      ensures event == BreedingEvent(id, profileId, parentAId, parentBId, babyPetId, usedBreedingSessionItem, now)
      ensures db.Snapshot() == old(db.Snapshot()).(breedingEvents := old(db.breedingEvents) + [event])
    {
      event := BreedingEvent(id, profileId, parentAId, parentBId, babyPetId, usedBreedingSessionItem, now);
      assert forall k :: 0 <= k < |db.breedingEvents| ==> db.breedingEvents[k] in db.breedingEvents;
      db.breedingEvents := db.breedingEvents + [event];
    }

    method ListByProfile(profileId: string) returns (events: seq<BreedingEvent>)
      ensures events == EventsOfProfile(db.breedingEvents, profileId)
    {
      events := EventsOfProfile(db.breedingEvents, profileId);
    }

    method ListByPetId(petId: string) returns (events: seq<BreedingEvent>)
      ensures events == EventsOfPet(db.breedingEvents, petId)
    {
      events := EventsOfPet(db.breedingEvents, petId);
    }
  }
}
