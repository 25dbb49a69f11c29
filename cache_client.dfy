/** CacheClient: a generic read-through cache over Redis with two defences. Null pass-through
    caches an empty string for ids the database does not have. Logical expiry keeps the
    value in Redis with an expiry time inside it, and lets one stale reader schedule a
    rebuild while every reader keeps getting the stale value. */
module CacheClient {
  import opened Redis

  /** trylock's TTL, in seconds. */
  const TRYLOCK_TTL := 10

  // ---- the mutex ---------------------------------------------------------------------------

  datatype Locked = Locked(ok: bool, cache: map<string, Entry>)

  /** trylock: SET key "1" NX EX 10; a null reply counts as failure (BooleanUtil.isTrue). */
  function TryLockSpec(cache: map<string, Entry>, key: string, now: int, connected: bool): (r: Locked)
    ensures r.ok <==> connected && Lookup(cache, key, now).None?
    ensures r.ok ==> r.cache == SetEx(cache, key, Text("1"), TRYLOCK_TTL, now)
    ensures !r.ok ==> r.cache == cache
  {
    var reply := SetIfAbsent(cache, key, Text("1"), TRYLOCK_TTL, now, connected);
    Locked(reply.reply == Some(true), reply.cache)
  }

  method TryLock(b: Backend, key: string, now: int) returns (ok: bool)
    modifies b`cache
    ensures Locked(ok, b.cache) == TryLockSpec(old(b.cache), key, now, b.connected)
  {
    var flag := b.SetNx(key, Text("1"), TRYLOCK_TTL, now);
    ok := flag == Some(true);
  }

  /** unlock: DEL key, whoever set it. */
  method Unlock(b: Backend, key: string)
    modifies b`cache
    ensures b.cache == old(b.cache) - {key}
  {
    b.Delete(key);
  }

  // ---- decoding ----------------------------------------------------------------------------

  /** `JSONUtil.toBean(json, type)` on a non-blank reply: a JSON document decodes, any other
      text fails to parse. */
  function DecodeDoc(v: Value): Outcome<Option<Doc>>
  {
    if v.Json? then Returned(Some(v.doc)) else Threw
  }

  /** `JSONUtil.toBean((JSONObject) redisData.getData(), type)`: a null `data` gives null, a
      JSON array (a list) fails the cast to JSONObject. */
  function DecodeData(data: Option<Doc>): Outcome<Option<Doc>>
  {
    match data
    case None => Returned(None)
    case Some(ShopTypeListDoc(_)) => Threw
    case Some(d) => Returned(Some(d))
  }

  // ---- writes ------------------------------------------------------------------------------

  /** set: the value's JSON under `key` with the given TTL. */
  method Set(b: Backend, key: string, value: Doc, expireTime: int, unit: TimeUnit, now: int)
    requires ToSeconds(unit, expireTime) > 0
    modifies b`cache
    ensures b.cache == SetEx(old(b.cache), key, Json(value), ToSeconds(unit, expireTime), now)
  {
    b.Set(key, Json(value), ToSeconds(unit, expireTime), now);
  }

  /** What setWithLoginExpired stores: a RedisData expiring `expireTime` from now, under a
      Redis TTL of the same length. */
  function LogicalEntry(value: Option<Doc>, expireTime: int, unit: TimeUnit, now: int): (e: Entry)
    ensures AsRedisData(e.value) == Some(RedisData(now + ToSeconds(unit, expireTime), value))
    ensures e.expireAt == Some(now + ToSeconds(unit, expireTime))
  {
    var at := now + ToSeconds(unit, expireTime);
    Entry(Json(RedisDataDoc(RedisData(at, value))), Some(at))
  }

  method SetWithLogicalExpire(b: Backend, key: string, value: Option<Doc>, expireTime: int,
                              unit: TimeUnit, now: int)
    requires ToSeconds(unit, expireTime) > 0
    modifies b`cache
    ensures b.cache == old(b.cache)[key := LogicalEntry(value, expireTime, unit, now)]
  {
    var redisData := RedisData(now + ToSeconds(unit, expireTime), value);
    b.Set(key, Json(RedisDataDoc(redisData)), ToSeconds(unit, expireTime), now);
  }

  // ---- queryWithNullPassThrough ------------------------------------------------------------

  /** A read-through query's answer, the cache after it, and whether it called the database. */
  datatype Read = Read(result: Outcome<Option<Doc>>, cache: map<string, Entry>, loaded: bool)

  /** queryWithNullPassThrough(id, keyPrefix, expireTime, unit, type, dbFallback) at `now`. */
  function NullPassThroughSpec(cache: map<string, Entry>, id: int, keyPrefix: string, expireTime: int,
                               unit: TimeUnit, dbFallback: int -> Option<Doc>, now: int): Read
  {
    var key := keyPrefix + Decimal(id);
    var json := Lookup(cache, key, now);
    if !IsBlank(json) then Read(DecodeDoc(json.value), cache, false)
    else if json.Some? then Read(Returned(None), cache, false)
    else
      match dbFallback(id)
      case None => Read(Returned(None), SetEx(cache, key, Text(""), CACHE_NULL_TTL * 60, now), true)
      case Some(t) => Read(Returned(Some(t)), SetEx(cache, key, Json(t), ToSeconds(unit, expireTime), now), true)
  }

  method QueryWithNullPassThrough(b: Backend, id: int, keyPrefix: string, expireTime: int, unit: TimeUnit,
                                  dbFallback: int -> Option<Doc>, now: int)
    returns (t: Outcome<Option<Doc>>, loaded: bool)
    requires ToSeconds(unit, expireTime) > 0
    modifies b`cache
    ensures Read(t, b.cache, loaded) == NullPassThroughSpec(old(b.cache), id, keyPrefix, expireTime, unit, dbFallback, now)
  {
    var key := keyPrefix + Decimal(id);
    var json := b.Get(key, now);
    loaded := false;
    if !IsBlank(json) {
      t := DecodeDoc(json.value);
      return;
    }
    if json.Some? {
      t := Returned(None);
      return;
    }
    var r := dbFallback(id);
    loaded := true;
    if r.None? {
      b.Set(key, Text(""), CACHE_NULL_TTL * 60, now);
      t := Returned(None);
      return;
    }
    b.Set(key, Json(r.value), ToSeconds(unit, expireTime), now);
    t := Returned(r);
  }

  /** A cached value is served as it is, without calling the database or writing. */
  lemma NullPassThroughHit(cache: map<string, Entry>, id: int, keyPrefix: string, expireTime: int,
                           unit: TimeUnit, dbFallback: int -> Option<Doc>, now: int, d: Doc)
    requires Lookup(cache, keyPrefix + Decimal(id), now) == Some(Json(d))
    ensures NullPassThroughSpec(cache, id, keyPrefix, expireTime, unit, dbFallback, now)
         == Read(Returned(Some(d)), cache, false)
  {
  }

  /** A cached blank string is the "no such row" marker: null, without calling the database. */
  lemma NullPassThroughMarker(cache: map<string, Entry>, id: int, keyPrefix: string, expireTime: int,
                              unit: TimeUnit, dbFallback: int -> Option<Doc>, now: int, s: string)
    requires Lookup(cache, keyPrefix + Decimal(id), now) == Some(Text(s))
    requires forall i :: 0 <= i < |s| ==> IsBlankChar(s[i])
    ensures NullPassThroughSpec(cache, id, keyPrefix, expireTime, unit, dbFallback, now)
         == Read(Returned(None), cache, false)
  {
  }

  /** A miss calls the database once and answers with its row. A missing row is then cached as
      "" for CACHE_NULL_TTL minutes, and a found row as its JSON for the caller's TTL. */
  lemma NullPassThroughMiss(cache: map<string, Entry>, id: int, keyPrefix: string, expireTime: int,
                            unit: TimeUnit, dbFallback: int -> Option<Doc>, now: int)
    requires Lookup(cache, keyPrefix + Decimal(id), now).None?
    ensures var r := NullPassThroughSpec(cache, id, keyPrefix, expireTime, unit, dbFallback, now);
            var key := keyPrefix + Decimal(id);
      && r.loaded
      && r.result == Returned(dbFallback(id))
      && (dbFallback(id).None? ==> r.cache == cache[key := Entry(Text(""), Some(now + 120))])
      && (dbFallback(id).Some? ==>
            r.cache == cache[key := Entry(Json(dbFallback(id).value), Some(now + ToSeconds(unit, expireTime)))])
  {
  }

  /** Round trip: within the TTL of what a miss wrote, the next query gives the same answer the
      database gave, the row or null, without calling the database again, whatever the database
      (`dbFallback2`) holds by then. */
  lemma NullPassThroughRoundTrip(cache: map<string, Entry>, id: int, keyPrefix: string, expireTime: int,
                                 unit: TimeUnit, dbFallback: int -> Option<Doc>, dbFallback2: int -> Option<Doc>,
                                 t1: int, t2: int)
    requires Lookup(cache, keyPrefix + Decimal(id), t1).None?
    requires t1 <= t2
    requires t2 < t1 + (if dbFallback(id).None? then CACHE_NULL_TTL * 60 else ToSeconds(unit, expireTime))
    ensures var r1 := NullPassThroughSpec(cache, id, keyPrefix, expireTime, unit, dbFallback, t1);
            var r2 := NullPassThroughSpec(r1.cache, id, keyPrefix, expireTime, unit, dbFallback2, t2);
      r2 == Read(Returned(dbFallback(id)), r1.cache, false)
  {
    var key := keyPrefix + Decimal(id);
    var r1 := NullPassThroughSpec(cache, id, keyPrefix, expireTime, unit, dbFallback, t1);
    NullPassThroughMiss(cache, id, keyPrefix, expireTime, unit, dbFallback, t1);
    if dbFallback(id).None? {
      assert Lookup(r1.cache, key, t2) == Some(Text(""));
    } else {
      assert Lookup(r1.cache, key, t2) == Some(Json(dbFallback(id).value));
    }
  }

  /** Once the marker's TTL has run out, the database is asked again. */
  lemma NullMarkerExpires(cache: map<string, Entry>, id: int, keyPrefix: string, expireTime: int,
                          unit: TimeUnit, dbFallback: int -> Option<Doc>, t1: int, t2: int)
    requires Lookup(cache, keyPrefix + Decimal(id), t1).None? && dbFallback(id).None?
    requires t1 + CACHE_NULL_TTL * 60 <= t2
    ensures var r1 := NullPassThroughSpec(cache, id, keyPrefix, expireTime, unit, dbFallback, t1);
      NullPassThroughSpec(r1.cache, id, keyPrefix, expireTime, unit, dbFallback, t2).loaded
  {
    var key := keyPrefix + Decimal(id);
    var r1 := NullPassThroughSpec(cache, id, keyPrefix, expireTime, unit, dbFallback, t1);
    assert r1.cache[key] == Entry(Text(""), Some(t1 + 120));
    assert Lookup(r1.cache, key, t2).None?;
  }

  // ---- queryWithLoginExpired ---------------------------------------------------------------

  /** A logical-expiry query's answer, the cache after it, and whether it submitted a rebuild
      task (`RebuildLogical`, run later by the executor). */
  datatype LogicalRead = LogicalRead(result: Outcome<Option<Doc>>, cache: map<string, Entry>, rebuild: bool)

  /** The lock key of an id: LOCK_SHOP_KEY whatever the cache's key prefix. */
  function LockKey(id: int): string
  {
    LOCK_SHOP_KEY + Decimal(id)
  }

  /** queryWithLoginExpired(keyPrefix, id, ...) at `now`. `race` is what other clients did to
      the key between the lock attempt and the second read. */
  function LogicalExpireSpec(cache: map<string, Entry>, keyPrefix: string, id: int, now: int,
                             connected: bool, race: Race): LogicalRead
  {
    var key := keyPrefix + Decimal(id);
    var json := Lookup(cache, key, now);
    if IsBlank(json) then LogicalRead(Returned(None), cache, false)
    else
      match AsRedisData(json.value)
      case None => LogicalRead(Threw, cache, false)
      case Some(redisData) =>
        var t := DecodeData(redisData.data);
        if t.Threw? then LogicalRead(Threw, cache, false)
        else if redisData.expireTime > now then LogicalRead(t, cache, false)
        else StaleSpec(cache, key, LockKey(id), now, connected, race, t.value)
  }

  /** The expired branch: try the lock, read the key again, and submit a rebuild only if the
      lock was won and the second read is not fresh; the finally block deletes the lock key
      on every path. */
  function StaleSpec(cache: map<string, Entry>, key: string, lockKey: string, now: int,
                     connected: bool, race: Race, stale: Option<Doc>): LogicalRead
  {
    var lock := TryLockSpec(cache, lockKey, now, connected);
    var raced := ApplyRace(lock.cache, key, race);
    var released := raced - {lockKey};
    var json := Lookup(raced, key, now);
    if IsBlank(json) then LogicalRead(Returned(stale), released, lock.ok)
    else
      match AsRedisData(json.value)
      case None => LogicalRead(Threw, released, false)
      case Some(latest) =>
        if latest.expireTime > now then LogicalRead(DecodeData(latest.data), released, false)
        else LogicalRead(Returned(stale), released, lock.ok)
  }

  method QueryWithLogicalExpire(b: Backend, keyPrefix: string, id: int, now: int, race: Race)
    returns (t: Outcome<Option<Doc>>, rebuild: bool)
    modifies b`cache
    ensures LogicalRead(t, b.cache, rebuild) == LogicalExpireSpec(old(b.cache), keyPrefix, id, now, b.connected, race)
  {
    var key := keyPrefix + Decimal(id);
    var json := b.Get(key, now);
    rebuild := false;
    if IsBlank(json) {
      t := Returned(None);
      return;
    }
    var redisData := AsRedisData(json.value);
    if redisData.None? {
      t := Threw;
      return;
    }
    t := DecodeData(redisData.value.data);
    if t.Threw? || redisData.value.expireTime > now {
      return;
    }
    var lockKey := LOCK_SHOP_KEY + Decimal(id);
    var isLock := TryLock(b, lockKey, now);
    b.Interleave(key, race);
    json := b.Get(key, now);
    var served := false;
    if !IsBlank(json) {
      var latest := AsRedisData(json.value);
      if latest.None? {
        t, served := Threw, true;
      } else if latest.value.expireTime > now {
        Unlock(b, lockKey);
        t, served := DecodeData(latest.value.data), true;
      }
    }
    if !served && isLock {
      rebuild := true;
    }
    Unlock(b, lockKey);
  }

  /** The rebuild task: load the row and store it with a fresh logical expiry. */
  method RebuildLogical(b: Backend, keyPrefix: string, id: int, expireTime: int, unit: TimeUnit,
                        dbFallback: int -> Option<Doc>, now: int)
    requires ToSeconds(unit, expireTime) > 0
    modifies b`cache
    ensures b.cache == old(b.cache)[keyPrefix + Decimal(id) := LogicalEntry(dbFallback(id), expireTime, unit, now)]
  {
    var newT := dbFallback(id);
    SetWithLogicalExpire(b, keyPrefix + Decimal(id), newT, expireTime, unit, now);
  }

  /** A blank or missing key answers null and touches nothing. */
  lemma LogicalBlank(cache: map<string, Entry>, keyPrefix: string, id: int, now: int, connected: bool, race: Race)
    requires IsBlank(Lookup(cache, keyPrefix + Decimal(id), now))
    ensures LogicalExpireSpec(cache, keyPrefix, id, now, connected, race) == LogicalRead(Returned(None), cache, false)
  {
  }

  /** A value whose logical expiry is still ahead is served without locking or writing. */
  lemma LogicalFresh(cache: map<string, Entry>, keyPrefix: string, id: int, now: int, connected: bool,
                     race: Race, redisData: RedisData, expireAt: Option<int>)
    requires keyPrefix + Decimal(id) in cache && Alive(cache[keyPrefix + Decimal(id)], now)
    requires cache[keyPrefix + Decimal(id)].value == Json(RedisDataDoc(redisData))
    requires redisData.expireTime > now
    ensures LogicalExpireSpec(cache, keyPrefix, id, now, connected, race)
         == LogicalRead(DecodeData(redisData.data), cache, false)
  {
  }

  /** The key holds a RedisData whose logical expiry has passed and whose data decodes to
      `stale`, and the key is not the lock key itself. */
  predicate StaleEntry(cache: map<string, Entry>, keyPrefix: string, id: int, now: int, stale: Option<Doc>)
  {
    && keyPrefix != LOCK_SHOP_KEY
    && Lookup(cache, keyPrefix + Decimal(id), now).Some?
    && AsRedisData(Lookup(cache, keyPrefix + Decimal(id), now).value).Some?
    && var redisData := AsRedisData(Lookup(cache, keyPrefix + Decimal(id), now).value).value;
    && redisData.expireTime <= now
    && DecodeData(redisData.data) == Returned(stale)
  }

  /** An expired value with nobody else writing: every reader gets the stale value, a rebuild is
      submitted exactly when this reader won the lock, and the lock key is gone afterwards
      whether this reader set it or another client did. Nothing else changes. */
  lemma LogicalStale(cache: map<string, Entry>, keyPrefix: string, id: int, now: int, connected: bool,
                     stale: Option<Doc>)
    requires StaleEntry(cache, keyPrefix, id, now, stale)
    ensures var r := LogicalExpireSpec(cache, keyPrefix, id, now, connected, Quiet);
      && r.result == Returned(stale)
      && (r.rebuild <==> connected && Lookup(cache, LockKey(id), now).None?)
      && r.cache == cache - {LockKey(id)}
  {
    var key := keyPrefix + Decimal(id);
    PrefixesDiffer(keyPrefix, LOCK_SHOP_KEY, Decimal(id));
    var lock := TryLockSpec(cache, LockKey(id), now, connected);
    assert Lookup(lock.cache, key, now) == Lookup(cache, key, now);
    if lock.ok {
      assert lock.cache - {LockKey(id)} == cache - {LockKey(id)};
    }
  }

  /** The double check: if another client stored a fresh value before the second read, that
      value is returned and no rebuild is submitted, even by the lock's winner. */
  lemma LogicalDoubleCheck(cache: map<string, Entry>, keyPrefix: string, id: int, now: int, connected: bool,
                           stale: Option<Doc>, latest: RedisData, expireAt: Option<int>)
    requires StaleEntry(cache, keyPrefix, id, now, stale)
    requires latest.expireTime > now && Alive(Entry(Json(RedisDataDoc(latest)), expireAt), now)
    ensures var r := LogicalExpireSpec(cache, keyPrefix, id, now, connected, Wrote(Entry(Json(RedisDataDoc(latest)), expireAt)));
      && r.result == DecodeData(latest.data)
      && !r.rebuild
      && LockKey(id) !in r.cache
      && Lookup(r.cache, keyPrefix + Decimal(id), now) == Some(Json(RedisDataDoc(latest)))
  {
    PrefixesDiffer(keyPrefix, LOCK_SHOP_KEY, Decimal(id));
  }

  /** What setWithLoginExpired stores never reaches the stale branch: its Redis TTL ends when its
      logical expiry does, so a later query finds it fresh or finds nothing. No lock is taken
      and no rebuild is ever submitted for it. */
  lemma LogicalEntryNeverStale(cache: map<string, Entry>, keyPrefix: string, id: int, value: Option<Doc>,
                               expireTime: int, unit: TimeUnit, t1: int, t2: int, connected: bool, race: Race)
    requires ToSeconds(unit, expireTime) > 0 && t1 <= t2
    ensures var written := cache[keyPrefix + Decimal(id) := LogicalEntry(value, expireTime, unit, t1)];
            var r := LogicalExpireSpec(written, keyPrefix, id, t2, connected, race);
      && !r.rebuild
      && r.cache == written
      && r.result == (if t2 < t1 + ToSeconds(unit, expireTime) then DecodeData(value) else Returned(None))
  {
    var key := keyPrefix + Decimal(id);
    var written := cache[key := LogicalEntry(value, expireTime, unit, t1)];
    if t2 < t1 + ToSeconds(unit, expireTime) {
      assert Lookup(written, key, t2) == Some(LogicalEntry(value, expireTime, unit, t1).value);
    } else {
      assert Lookup(written, key, t2).None?;
    }
  }

  /** Because the finally block deletes the lock as soon as the rebuild is submitted, a second
      reader that comes before the rebuild has run wins the lock again and submits a second
      rebuild. */
  lemma TwoStaleReadersBothRebuild(cache: map<string, Entry>, keyPrefix: string, id: int,
                                   t1: int, t2: int, stale: Option<Doc>)
    requires StaleEntry(cache, keyPrefix, id, t1, stale) && StaleEntry(cache, keyPrefix, id, t2, stale)
    requires Lookup(cache, LockKey(id), t1).None?
    ensures var r1 := LogicalExpireSpec(cache, keyPrefix, id, t1, true, Quiet);
            var r2 := LogicalExpireSpec(r1.cache, keyPrefix, id, t2, true, Quiet);
      r1.rebuild && r2.rebuild && r1.result == r2.result == Returned(stale)
  {
    var key := keyPrefix + Decimal(id);
    LogicalStale(cache, keyPrefix, id, t1, true, stale);
    var r1 := LogicalExpireSpec(cache, keyPrefix, id, t1, true, Quiet);
    PrefixesDiffer(keyPrefix, LOCK_SHOP_KEY, Decimal(id));
    assert Lookup(r1.cache, key, t2) == Lookup(cache, key, t2);
    LogicalStale(r1.cache, keyPrefix, id, t2, true, stale);
  }

  /** After the rebuild has run, queries within the new expiry get the reloaded row, without a
      lock or a further rebuild. */
  lemma RebuildRefreshes(cache: map<string, Entry>, keyPrefix: string, id: int, expireTime: int, unit: TimeUnit,
                         dbFallback: int -> Option<Doc>, t: int, later: int, connected: bool, race: Race)
    requires ToSeconds(unit, expireTime) > 0
    requires t <= later < t + ToSeconds(unit, expireTime)
    ensures var rebuilt := cache[keyPrefix + Decimal(id) := LogicalEntry(dbFallback(id), expireTime, unit, t)];
            var r := LogicalExpireSpec(rebuilt, keyPrefix, id, later, connected, race);
      r == LogicalRead(DecodeData(dbFallback(id)), rebuilt, false)
  {
    LogicalEntryNeverStale(cache, keyPrefix, id, dbFallback(id), expireTime, unit, t, later, connected, race);
  }
}
