/** The in-memory watchlist (src/cache.rs): its value, and the object that holds it. */
module Cache {
  import opened Base

  datatype WatchKey = WatchKey(tokenIdx: nat, address: Address)

  datatype WatchRef = WatchRef(id: Id, serial: nat, start: nat)

  datatype CacheState = CacheState(entries: map<WatchKey, WatchRef>, lastSeq: nat)

  const EMPTY: CacheState := CacheState(map[], 0)

  /** Inserting replaces the entry and raises `lastSeq`, whatever else the cache holds. */
  function Inserted(c: CacheState, key: WatchKey, watch: WatchRef): CacheState {
    CacheState(c.entries[key := watch], Max(c.lastSeq, watch.serial))
  }

  /** Removing touches the entry only while it still belongs to `id`. */
  function Removed(c: CacheState, key: WatchKey, id: Id): CacheState {
    if key in c.entries && c.entries[key].id == id then c.(entries := c.entries - {key}) else c
  }

  class WatchCache {
    var entries: map<WatchKey, WatchRef>
    var lastSeq: nat

    function State(): CacheState
      reads this
    {
      CacheState(entries, lastSeq)
    }

    constructor ()
      ensures State() == EMPTY
    {
      entries := map[];
      lastSeq := 0;
    }

    method Insert(key: WatchKey, watch: WatchRef) returns (added: bool)
      modifies this
      ensures State() == Inserted(old(State()), key, watch)
      ensures added <==> key !in old(entries)
    {
      if lastSeq < watch.serial {
        lastSeq := watch.serial;
      }
      added := key !in entries;
      entries := entries[key := watch];
    }

    method Get(key: WatchKey) returns (r: Option<WatchRef>)
      ensures r.Some? <==> key in entries
      ensures r.Some? ==> r.value == entries[key]
    {
      r := if key in entries then Some(entries[key]) else None;
    }

    method Remove(key: WatchKey, id: Id) returns (removed: bool)
      modifies this
      ensures State() == Removed(old(State()), key, id)
      ensures removed <==> State() != old(State())
    {
      removed := key in entries && entries[key].id == id;
      if removed {
        assert key in entries && key !in entries - {key};
        entries := entries - {key};
      }
    }
  }

  /** Removing a watch that was inserted leaves its key empty and every other entry alone; the mark stays. */
  lemma RemovalUndoesInsert(c: CacheState, key: WatchKey, watch: WatchRef)
    ensures var c' := Removed(Inserted(c, key, watch), key, watch.id);
            && key !in c'.entries && c'.lastSeq >= c.lastSeq && c'.lastSeq >= watch.serial
            && forall other :: other != key ==>
                 && (other in c'.entries <==> other in c.entries)
                 && (other in c.entries ==> c'.entries[other] == c.entries[other])
  {
  }

  /** A newer watch on the same target survives the removal of an older one (src/cache.rs:115-125). */
  lemma RemovalSparesNewer(c: CacheState, key: WatchKey, older: WatchRef, newer: WatchRef)
    requires older.id != newer.id
    ensures Removed(Inserted(Inserted(c, key, older), key, newer), key, older.id)
         == Inserted(Inserted(c, key, older), key, newer)
  {
  }
}
