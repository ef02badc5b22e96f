/** The tracker in which a Processor records the grants it holds. */
module GrantMaps {
  import opened Ids

  datatype MapEntry<T> = MapEntry(shard: Shard, state: GrantState, value: T)

  class GrantMap<T> {
    var inner: map<GrantId, MapEntry<T>>

    constructor ()
      ensures inner == map[]
    {
      inner := map[];
    }

    method Write(id: GrantId, shard: Shard, state: GrantState, value: T)
      modifies this
      ensures inner == old(inner)[id := MapEntry(shard, state, value)]
    {
      inner := inner[id := MapEntry(shard, state, value)];
    }

    method Allocated(id: GrantId, shard: Shard, value: T)
      modifies this
      ensures inner == old(inner)[id := MapEntry(shard, GrantState.Allocated, value)]
    {
      Write(id, shard, GrantState.Allocated, value);
    }

    method Loaded(id: GrantId, shard: Shard, value: T)
      modifies this
      ensures inner == old(inner)[id := MapEntry(shard, AllocatedLoaded, value)]
    {
      Write(id, shard, AllocatedLoaded, value);
    }

    method Activate(id: GrantId, shard: Shard, value: T)
      modifies this
      ensures inner == old(inner)[id := MapEntry(shard, Active, value)]
    {
      Write(id, shard, Active, value);
    }

    method Revoke(id: GrantId, shard: Shard, value: T)
      modifies this
      ensures inner == old(inner)[id := MapEntry(shard, Revoked, value)]
    {
      Write(id, shard, Revoked, value);
    }

    method Unloaded(id: GrantId, shard: Shard, value: T)
      modifies this
      ensures inner == old(inner)[id := MapEntry(shard, RevokedUnloaded, value)]
    {
      Write(id, shard, RevokedUnloaded, value);
    }

    method Delete(id: GrantId) returns (gone: Option<MapEntry<T>>)
      modifies this
      ensures gone == if id in old(inner) then Some(old(inner)[id]) else None
      ensures inner == old(inner) - {id}
    {
      gone := Get(id);
      inner := inner - {id};
    }

    method Get(id: GrantId) returns (found: Option<MapEntry<T>>)
      ensures found.Some? <==> id in inner
      ensures found.Some? ==> found.value == inner[id]
    {
      if id in inner { found := Some(inner[id]); } else { found := None; }
    }
  }
}
