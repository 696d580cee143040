/**
 * The process-wide store of decoded event details, keyed by event id
 * (Evently/Modules/EventDetails/Cache/EventDetailsCacheManager.swift).
 *
 * The Swift actor wraps an NSCache, which may drop entries under memory
 * pressure whenever it likes. Here that reclamation is the extra operation
 * Reclaim, whose victims are chosen by the environment. The ghost history
 * records every operation applied, so that what a lookup returns can be
 * related to what was added and removed before it.
 */
module DetailsCache {
  import opened Wrappers
  import opened Records

  /** CacheError is not part of this model beyond its one case, used for a miss. */
  datatype CacheError = GetObjectError

  /** The lookup's `Result<EventDetailsObject, String>`; the failure carries the CacheError case whose raw value the Swift returns. */
  datatype CacheLookup = Success(entry: EventDetailsObject) | Failure(error: CacheError)

  type Store = map<string, EventDetailsObject>

  /** The operations that change the store: the two of the manager and NSCache's own eviction. */
  datatype CacheOp =
    | Add(key: string, entry: EventDetailsObject)
    | Remove(key: string)
    | Evict(victims: set<string>)

  /** The store after one operation. */
  function Apply(store: Store, op: CacheOp): (r: Store)
    ensures op.Add? ==> op.key in r && r[op.key] == op.entry
    ensures op.Remove? ==> op.key !in r && (op.key !in store ==> r == store)
    ensures op.Evict? ==> r.Keys == store.Keys - op.victims
    ensures forall k :: k in r ==> (op.Add? && k == op.key) || (k in store && r[k] == store[k])
    ensures forall k :: k in store && k !in r ==> (op.Remove? && k == op.key) || (op.Evict? && k in op.victims)
  {
    match op
    case Add(key, entry) => store[key := entry]
    case Remove(key) => store - {key}
    case Evict(victims) => store - victims
  }

  /** The store after a history of operations, starting empty. */
  function Replay(history: seq<CacheOp>): Store {
    if history == [] then map[]
    else Apply(Replay(history[..|history| - 1]), history[|history| - 1])
  }

  /** The entry most recently added under `key` and not removed since, if any. */
  function LatestAdded(history: seq<CacheOp>, key: string): Option<EventDetailsObject> {
    if history == [] then None
    else
      var earlier := LatestAdded(history[..|history| - 1], key);
      match history[|history| - 1]
      case Add(k, entry) => if k == key then Some(entry) else earlier
      case Remove(k) => if k == key then None else earlier
      case Evict(_) => earlier
  }

  /**
   * Whatever the store still holds for a key is the latest entry added
   * under it and not removed since; a key never added, or removed since,
   * is absent. Eviction only ever loses entries, never changes one.
   */
  lemma {:induction false} HitIsLatestAdded(history: seq<CacheOp>, key: string)
    ensures key in Replay(history) ==> LatestAdded(history, key) == Some(Replay(history)[key])
    ensures LatestAdded(history, key).None? ==> key !in Replay(history)
  {
    if history != [] {
      HitIsLatestAdded(history[..|history| - 1], key);
    }
  }

  class EventDetailsCacheManager {
    var cache: Store
    ghost var history: seq<CacheOp>

    ghost predicate Valid()
      reads this
    {
      cache == Replay(history)
    }

    /** The shared instance starts empty. */
    constructor ()
      ensures Valid() && cache == map[] && history == []
    {
      cache := map[];
      history := [];
    }

    /** getObjectFromCache: a hit returns the stored entry, a miss the getObjectError failure. */
    method GetObjectFromCache(key: string) returns (r: CacheLookup)
      requires Valid()
      ensures key in cache <==> r.Success?
      ensures r.Success? ==> r.entry == cache[key] && LatestAdded(history, key) == Some(r.entry)
      ensures r.Failure? ==> r.error == GetObjectError
      ensures LatestAdded(history, key).None? ==> r.Failure?
    {
      HitIsLatestAdded(history, key);
      if key !in cache {
        return Failure(GetObjectError);
      }
      r := Success(cache[key]);
    }

    /** addObjectToCache: overwrites whatever was stored under the key. */
    method AddObjectToCache(entry: EventDetailsObject, key: string)
      requires Valid()
      modifies this
      ensures Valid()
      ensures history == old(history) + [Add(key, entry)]
      ensures cache == old(cache)[key := entry]
    {
      cache := cache[key := entry];
      history := history + [Add(key, entry)];
    }

    /** removeObjectFromCache: drops the key; dropping an absent key changes nothing. */
    method RemoveObjectFromCache(key: string)
      requires Valid()
      modifies this
      ensures Valid()
      ensures history == old(history) + [Remove(key)]
      ensures cache == old(cache) - {key}
    {
      cache := cache - {key};
      history := history + [Remove(key)];
    }

    /** NSCache's own eviction under memory pressure; the victims are the platform's choice. */
    method Reclaim(victims: set<string>)
      requires Valid()
      modifies this
      ensures Valid()
      ensures history == old(history) + [Evict(victims)]
      ensures cache == old(cache) - victims
    {
      cache := cache - victims;
      history := history + [Evict(victims)];
    }
  }

  /** Adding then looking up the same key hits with that entry; a removed key then misses. */
  method AddThenGet(manager: EventDetailsCacheManager, details: EventDetails)
      returns (hit: CacheLookup, miss: CacheLookup)
    requires manager.Valid()
    modifies manager
    ensures hit == Success(ToObject(details))
    ensures miss == Failure(GetObjectError)
  {
    manager.AddObjectToCache(ToObject(details), details.id);
    hit := manager.GetObjectFromCache(details.id);
    manager.RemoveObjectFromCache(details.id);
    miss := manager.GetObjectFromCache(details.id);
  }
}
