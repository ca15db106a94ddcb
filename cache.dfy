/** The cache service the use cases talk to, as an in-memory map from key to
    the stored value and the time-to-live it was stored with. */
module Cache {
  import opened Common

  datatype Entry<T> = Entry(value: T, ttl: Option<int>)

  /** What the budget, expense and category caches hold under a key: one DTO
      or a list of DTOs. */
  datatype Cached<D> = Item(item: D) | Items(items: seq<D>)

  class CacheService<T> {
    var entries: map<string, Entry<T>>

    constructor ()
      ensures entries == map[]
    {
      entries := map[];
    }

    /** `get(key)`: the stored value, or None on a miss. */
    function Get(key: string): (r: Option<T>)
      reads this
      ensures r.Some? <==> key in entries
      ensures r.Some? ==> r.value == entries[key].value
    {
      if key in entries then Some(entries[key].value) else None
    }

    /** `set(key, value, ttl)` overwrites whatever the key held. */
    method Set(key: string, value: T, ttl: Option<int>)
      modifies this
      ensures entries == old(entries)[key := Entry(value, ttl)]
    {
      entries := entries[key := Entry(value, ttl)];
    }

    /** `delete(key)`; deleting an absent key changes nothing. */
    method Delete(key: string)
      modifies this
      ensures entries == old(entries) - {key}
      ensures key !in old(entries) ==> entries == old(entries)
    {
      entries := entries - {key};
    }
  }

  /** `get(key, serializer=D)`: only a stored single DTO reads back as one;
      a stored list fails to deserialize and reads as a miss. */
  function AsItem<D>(c: Option<Cached<D>>): (r: Option<D>)
    ensures r.Some? <==> c.Some? && c.value.Item?
    ensures r.Some? ==> c.value == Item(r.value)
  {
    if c.Some? && c.value.Item? then Some(c.value.item) else None
  }

  /** `get(key, serializer=list[D])`, combined with the use cases' truthiness
      test: a stored non-empty list is a hit; a stored empty list, a single
      DTO or no entry at all is a miss. */
  function NonEmptyList<D>(c: Option<Cached<D>>): (r: Option<seq<D>>)
    ensures r.Some? <==> c.Some? && c.value.Items? && c.value.items != []
    ensures r.Some? ==> c.value == Items(r.value) && r.value != []
  {
    if c.Some? && c.value.Items? && c.value.items != [] then Some(c.value.items) else None
  }
}
