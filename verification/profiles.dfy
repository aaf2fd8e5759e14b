/** User profiles and the in-memory profile store the service reads and writes. */
module Profiles {
  import opened PropertyValues

  /** A point in time, kept opaque: the model never computes with it. */
  datatype Instant = Instant(epochSecond: int, nano: int)

  datatype Profile = Profile(
    id: string,
    createdAt: Instant,
    properties: map<string, PropertyValue>)

  /** The store maps a user id to that user's profile. */
  type Store = map<string, Profile>

  /** The store's own invariant: each profile is filed under its own id, as
      `put` files a profile under the id it carries. */
  ghost predicate WellKeyed(store: Store) {
    forall id :: id in store ==> store[id].id == id
  }

  /** `put`: a whole-profile overwrite under the profile's own id. */
  function Put(store: Store, p: Profile): (s: Store)
  {
    store[p.id := p]
  }

  /** `put` files the profile under its own id, adding that id if it was
      new, leaves every other profile as it was, and keeps the store well
      keyed. */
  lemma PutFilesUnderOwnId(store: Store, p: Profile)
    ensures Put(store, p).Keys == store.Keys + {p.id}
    ensures Put(store, p)[p.id] == p
    ensures forall id :: id in store && id != p.id ==> Put(store, p)[id] == store[id]
    ensures WellKeyed(store) ==> WellKeyed(Put(store, p))
  {
  }
}
