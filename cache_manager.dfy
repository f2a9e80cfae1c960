/** The result cache of the oracle caller: analysis dictionaries stored under
    a key derived from the repository path, each with the time it was
    stored, and dropped on the first lookup that finds it older than the
    time-to-live. The key is SHA-256 of the resolved path in the source; here
    it is an arbitrary function `keyOf` fixed at construction, and `now` is
    the clock reading of the call. */
module CacheManager {
  import opened Json

  /** A stored analysis and the time it was stored. */
  datatype Entry = Entry(result: Json, storedAt: int)

  /** The answer and the new table of a lookup of `key` at time `now`. */
  function Lookup(entries: map<string, Entry>, key: string, now: int, ttl: int): (Option<Json>, map<string, Entry>) {
    if key !in entries then (None, entries)
    else if now - entries[key].storedAt > ttl then (None, entries - {key})
    else (Some(entries[key].result), entries)
  }

  /** The table after storing `result` under `key` at time `now`. */
  function Store(entries: map<string, Entry>, key: string, result: Json, now: int): map<string, Entry> {
    entries[key := Entry(result, now)]
  }

  class Cache {
    const ttl: int
    const keyOf: string -> string
    var entries: map<string, Entry>

    constructor (ttlSeconds: int, keyOf: string -> string)
      ensures ttl == ttlSeconds && this.keyOf == keyOf
      ensures entries == map[]
    {
      ttl := ttlSeconds;
      this.keyOf := keyOf;
      entries := map[];
    }

    /** `CacheManager.get`: the stored result while it is at most `ttl`
        seconds old; an entry found older is deleted. */
    method Get(repoPath: string, now: int) returns (r: Option<Json>)
      modifies this
      ensures var key := keyOf(repoPath);
        && (key !in old(entries) ==> r.None? && entries == old(entries))
        && (key in old(entries) && now - old(entries)[key].storedAt > ttl ==>
              r.None? && entries == old(entries) - {key})
        && (key in old(entries) && now - old(entries)[key].storedAt <= ttl ==>
              r == Some(old(entries)[key].result) && entries == old(entries))
      ensures (r, entries) == Lookup(old(entries), keyOf(repoPath), now, ttl)
    {
      var key := keyOf(repoPath);
      if key !in entries {
        return None;
      }
      var entry := entries[key];
      var elapsed := now - entry.storedAt;
      if elapsed > ttl {
        entries := entries - {key};
        return None;
      }
      return Some(entry.result);
    }

    /** `CacheManager.set`: store `result` stamped `now`, replacing any entry
        under the same key. */
    method Set(repoPath: string, result: Json, now: int)
      modifies this
      ensures entries == old(entries)[keyOf(repoPath) := Entry(result, now)]
      ensures entries == Store(old(entries), keyOf(repoPath), result, now)
    {
      entries := entries[keyOf(repoPath) := Entry(result, now)];
    }
  }

  /** A stored result is returned unchanged by every lookup up to and
      including `ttl` seconds later, and such a lookup leaves the table as
      it was. */
  lemma HitWithinTtl(entries: map<string, Entry>, key: string, result: Json, storedAt: int, now: int, ttl: int)
    requires now - storedAt <= ttl
    ensures Lookup(Store(entries, key, result, storedAt), key, now, ttl)
            == (Some(result), Store(entries, key, result, storedAt))
  {
  }

  /** A lookup more than `ttl` seconds after storing misses and removes the
      entry, so the next lookup misses as well whatever its time. */
  lemma ExpiredEvicted(entries: map<string, Entry>, key: string, result: Json, storedAt: int, now: int, later: int, ttl: int)
    requires now - storedAt > ttl
    ensures var (r, e) := Lookup(Store(entries, key, result, storedAt), key, now, ttl);
            r.None? && key !in e && e == entries - {key}
            && Lookup(e, key, later, ttl) == (None, e)
  {
  }

  /** Storing or looking up one key never changes the entry of another. */
  lemma OtherKeysUntouched(entries: map<string, Entry>, key: string, other: string, result: Json, now: int, ttl: int)
    requires other != key
    ensures var stored := Store(entries, key, result, now);
            (other in stored <==> other in entries) && (other in entries ==> stored[other] == entries[other])
    ensures var looked := Lookup(entries, key, now, ttl).1;
            (other in looked <==> other in entries) && (other in entries ==> looked[other] == entries[other])
  {
  }

  /** A lookup either leaves the table alone or deletes exactly the looked-up
      key; it never adds anything. */
  lemma LookupOnlyShrinks(entries: map<string, Entry>, key: string, now: int, ttl: int)
    ensures var e := Lookup(entries, key, now, ttl).1;
            e == entries || (key in entries && e == entries - {key})
    ensures Lookup(entries, key, now, ttl).0.Some? ==> key in entries && Lookup(entries, key, now, ttl).0.value == entries[key].result
  {
  }
}
