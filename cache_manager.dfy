/** The time-to-live cache over `localStorage`: entries `{data, timestamp}`
    under a namespaced key, read back only while their age is within the
    configured duration and deleted by the reader once they are older. The
    clock is a parameter of every operation that reads it. */
module Cache {
  import opened Json
  import opened Storage

  /** An entry stored at `timestamp` is stale at `now` once its age exceeds
      `duration`; an age of exactly `duration` still reads. */
  predicate Stale(timestamp: int, now: int, duration: int) {
    now - timestamp > duration
  }

  /** What a read of `key` at `now` returns: the data of a well-formed entry
      that is not stale, and nothing for a missing key, a malformed item or a
      stale entry. */
  function ReadResult(items: map<string, Item>, key: string, now: int, duration: int): Option<Json> {
    if key !in items then None
    else match items[key]
      case Raw(_) => None
      case Entry(data, timestamp) => if Stale(timestamp, now, duration) then None else Some(data)
  }

  /** The storage after that read: a stale entry is removed, nothing else
      changes. */
  function AfterRead(items: map<string, Item>, key: string, now: int, duration: int): map<string, Item> {
    if key in items && items[key].Entry? && Stale(items[key].timestamp, now, duration)
    then items - {key}
    else items
  }

  /** The storage after a best-effort write at `now`. */
  function AfterWrite(items: map<string, Item>, key: string, data: Json, now: int, quotaExceeded: bool): map<string, Item> {
    if quotaExceeded then items else items[key := Entry(data, now)]
  }

  /** A read hits exactly on a well-formed entry whose age is at most the
      duration, and returns that entry's data. */
  lemma ReadHitIff(items: map<string, Item>, key: string, now: int, duration: int, data: Json)
    ensures ReadResult(items, key, now, duration) == Some(data) <==>
              key in items && items[key].Entry? && items[key].data == data &&
              now - items[key].timestamp <= duration
  {
  }

  /** A read changes storage only by deleting its own key, and only when that
      key holds a stale entry; a missing key or a malformed item is left as
      it is. */
  lemma ReadRemovesOnlyStaleKey(items: map<string, Item>, key: string, now: int, duration: int)
    ensures var after := AfterRead(items, key, now, duration);
            forall k | k != key :: (k in after <==> k in items) && (k in items ==> after[k] == items[k])
    ensures key in AfterRead(items, key, now, duration) <==>
              key in items && !(items[key].Entry? && Stale(items[key].timestamp, now, duration))
    ensures key !in items || items[key].Raw? ==> AfterRead(items, key, now, duration) == items
    ensures ReadResult(items, key, now, duration).Some? ==> AfterRead(items, key, now, duration) == items
  {
  }

  /** A write stores `{data, timestamp: now}` under its key and changes no
      other key; a write that hits the quota changes nothing. */
  lemma WriteChangesOnlyItsKey(items: map<string, Item>, key: string, data: Json, now: int, quotaExceeded: bool)
    ensures var after := AfterWrite(items, key, data, now, quotaExceeded);
            forall k | k != key :: (k in after <==> k in items) && (k in items ==> after[k] == items[k])
    ensures !quotaExceeded ==> AfterWrite(items, key, data, now, quotaExceeded)[key] == Entry(data, now)
    ensures quotaExceeded ==> AfterWrite(items, key, data, now, quotaExceeded) == items
  {
  }

  /** Reading back what was written at `t` gives the data while its age is at
      most the duration, and nothing afterwards. */
  lemma WriteThenRead(items: map<string, Item>, key: string, data: Json, t: int, now: int, duration: int)
    ensures ReadResult(AfterWrite(items, key, data, t, false), key, now, duration) ==
              if now - t <= duration then Some(data) else None
  {
  }

  /** With a ten-minute duration, an entry stored at `t` still reads at
      `t + 600000` and leaves storage alone, and at `t + 600001` reads as
      absent and is deleted. */
  lemma TenMinuteBoundary(items: map<string, Item>, key: string, data: Json, t: int)
    requires key in items && items[key] == Entry(data, t)
    ensures ReadResult(items, key, t + 600000, 600000) == Some(data)
    ensures AfterRead(items, key, t + 600000, 600000) == items
    ensures ReadResult(items, key, t + 600001, 600000) == None
    ensures key !in AfterRead(items, key, t + 600001, 600000)
  {
  }

  class CacheManager {
    const prefix: string
    const duration: int
    const storage: LocalStorage

    constructor (prefix: string, duration: int, storage: LocalStorage)
      ensures this.prefix == prefix && this.duration == duration && this.storage == storage
    {
      this.prefix := prefix;
      this.duration := duration;
      this.storage := storage;
    }

    /** The key of `url`: the prefix, a colon, then the URL. */
    function CacheKey(url: string): (key: string)
      ensures |key| == |prefix| + 1 + |url|
      ensures key[..|prefix|] == prefix && key[|prefix|] == ':' && key[|prefix| + 1..] == url
    {
      prefix + ":" + url
    }

    /** Stores `data` with the time of the write. Never fails: a write the
        storage refuses leaves it as it was. */
    method Set(url: string, data: Json, now: int, quotaExceeded: bool)
      modifies storage
      ensures storage.items == AfterWrite(old(storage.items), CacheKey(url), data, now, quotaExceeded)
    {
      var key := CacheKey(url);
      var threw := storage.SetItem(key, Entry(data, now), quotaExceeded);
    }

    /** The cached data of `url` at `now`, deleting it when it is stale. */
    method Get(url: string, now: int) returns (r: Option<Json>)
      modifies storage
      ensures r == ReadResult(old(storage.items), CacheKey(url), now, duration)
      ensures storage.items == AfterRead(old(storage.items), CacheKey(url), now, duration)
    {
      var key := CacheKey(url);
      var cached := storage.GetItem(key);
      if cached.None? || cached.value == Raw("") {
        return None;
      }
      match cached.value
      case Raw(_) =>
        // the text does not parse as an entry; the error is swallowed
        r := None;
      case Entry(data, timestamp) =>
        if now - timestamp > duration {
          storage.RemoveItem(key);
          return None;
        }
        r := Some(data);
    }
  }

  /** For one prefix, distinct URLs get distinct keys. */
  lemma CacheKeyInjective(c: CacheManager, u1: string, u2: string)
    ensures c.CacheKey(u1) == c.CacheKey(u2) ==> u1 == u2
  {
  }
}
