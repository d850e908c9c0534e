/**
 * The volatile event store used by the engine and its tests: one ordered
 * event list per stream, kept in a mutable map and replaced wholesale on
 * every append.
 */
module TestEventStore {

  /** The key under which a stream's events are cached. */
  datatype CacheEntry<K> = CacheEntry(id: K)

  /** The key of a stream; it is determined by the stream id alone. */
  function CacheEntryFrom<K>(id: K): (key: CacheEntry<K>)
    ensures key.id == id
  {
    CacheEntry(id)
  }

  /** Distinct streams never share a key, so they never see each other's events. */
  lemma CacheEntryFromInjective<K>(a: K, b: K)
    ensures CacheEntryFrom(a) == CacheEntryFrom(b) <==> a == b
  {
  }

  class EventStoreForTest<K(==,!new), E> {

    var cache: map<CacheEntry<K>, seq<E>>

    constructor()
      ensures cache == map[]
      ensures forall id :: Events(id) == []
    {
      cache := map[];
    }

    /** The events of stream `id`, oldest first; empty for a stream never appended to. */
    function Events(id: K): seq<E>
      reads this
    {
      var key := CacheEntryFrom(id);
      if key in cache then cache[key] else []
    }

    method GetEventForAggregate(id: K) returns (events: seq<E>)
      ensures events == Events(id)
      ensures CacheEntryFrom(id) !in cache ==> events == []
    {
      var key := CacheEntryFrom(id);
      if key in cache {
        events := cache[key];
      } else {
        events := [];
      }
    }

    /**
     * Adds `events` after the events already on stream `id`. The key is
     * written even when `events` is empty, so the map may gain an entry,
     * but no stream's events change then.
     */
    method AppendEvents(id: K, events: seq<E>)
      modifies this
      ensures cache == old(cache)[CacheEntryFrom(id) := old(Events(id)) + events]
      ensures Events(id) == old(Events(id)) + events
      ensures |Events(id)| == |old(Events(id))| + |events|
      ensures forall other :: other != id ==> Events(other) == old(Events(other))
      ensures events == [] ==> forall other :: Events(other) == old(Events(other))
    {
      var key := CacheEntryFrom(id);
      var storedEvents := if key in cache then cache[key] else [];
      storedEvents := storedEvents + events;
      cache := cache[key := storedEvents];
    }
  }
}
