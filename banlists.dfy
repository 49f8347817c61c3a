/**
 * `Banlist`: a lazily created singleton holding the key names of banned
 * products and users. The first retrieval that finds no entity and is allowed
 * to reach the datastore backfills both lists from the newest products and
 * users and stores the entity; every later retrieval returns that entity.
 */
module Banlists {
  import opened Wrappers

  /** The storage tiers a retrieval may name (`MEMCACHE`, `DATASTORE`). */
  datatype Tier = Memcache | Datastore

  /** The banlist entity: its key name and its two string lists. */
  datatype Banlist = Banlist(keyName: string, products: seq<string>, users: seq<string>)

  /** `Banlist._key_name`. */
  const BanlistKeyName: string := "banlist"

  /** The `fetch` limit of the backfill queries. */
  const FetchLimit: nat := 1000

  /**
   * `db.Query(..., keys_only=True).order("-add_date").fetch(1000)` turned
   * into key names: given all names newest first, the first thousand.
   */
  function Backfill(newestFirst: seq<string>): (r: seq<string>)
    ensures |r| == if |newestFirst| < FetchLimit then |newestFirst| else FetchLimit
    ensures r <= newestFirst
  {
    if |newestFirst| < FetchLimit then newestFirst else newestFirst[..FetchLimit]
  }

  /** `kwds.get('_storage')` is given, non-empty and names the datastore. */
  predicate ReachesDatastore(storage: Option<seq<Tier>>) {
    storage.Some? && Datastore in storage.value
  }

  /** The storage the banlist lives in, with a ghost count of the backfills run against it. */
  class BanlistStore {
    var stored: Option<Banlist>
    ghost var backfills: nat

    /** The backfill runs at most once, and only the run that creates the entity runs it. */
    ghost predicate Valid()
      reads this
    {
      backfills <= 1 && (stored.None? ==> backfills == 0) && (stored.Some? ==> stored.value.keyName == BanlistKeyName)
    }

    constructor ()
      ensures Valid() && stored == None
    {
      stored := None;
      backfills := 0;
    }

    /**
     * `Banlist.retrieve(_storage=storage)`: the stored entity when there is
     * one; otherwise, when the datastore may be reached, a new entity
     * backfilled from the newest products and users, which is stored; and
     * otherwise nothing.
     */
    method Retrieve(storage: Option<seq<Tier>>, newestProducts: seq<string>, newestUsers: seq<string>)
      returns (r: Option<Banlist>)
      requires Valid()
      modifies this
      ensures Valid()
      ensures old(stored).Some? ==> r == old(stored) && stored == old(stored) && backfills == old(backfills)
      ensures old(stored).None? && ReachesDatastore(storage) ==>
        && r == Some(Banlist(BanlistKeyName, Backfill(newestProducts), Backfill(newestUsers)))
        && stored == r && backfills == old(backfills) + 1
      ensures old(stored).None? && !ReachesDatastore(storage) ==> r.None? && stored.None? && backfills == old(backfills)
    {
      if stored.Some? {
        return stored;
      }
      if storage.Some? && Datastore in storage.value {
        var products := Backfill(newestProducts);
        var users := Backfill(newestUsers);
        var entity := Banlist(BanlistKeyName, products, users);
        stored := Some(entity);
        backfills := backfills + 1;
        return Some(entity);
      }
      return None;
    }
  }

  /**
   * Two retrievals in a row return the same entity once the first one
   * returned one, whatever storage and queries the second one sees: the
   * backfill is not repeated.
   */
  method RetrieveTwice(store: BanlistStore, s1: Option<seq<Tier>>, s2: Option<seq<Tier>>,
                       p1: seq<string>, u1: seq<string>, p2: seq<string>, u2: seq<string>)
    returns (first: Option<Banlist>, second: Option<Banlist>)
    requires store.Valid()
    modifies store
    ensures store.Valid()
    ensures first.Some? ==> second == first
    ensures store.backfills <= 1
  {
    first := store.Retrieve(s1, p1, u1);
    second := store.Retrieve(s2, p2, u2);
  }
}
