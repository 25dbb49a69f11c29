/** ShopServiceImpl: the shop cache under key "cache:shop:" + id, read in three ways. Pass-through
    caches a "" marker for missing shops. The mutex read rebuilds under a lock. The
    logical-expiry read serves a RedisData wrapper and rebuilds in the background. Its write
    path updates the row and then deletes the cache key. */
module ShopService {
  import opened Redis
  import opened CacheClient

  function ShopKey(id: int): string
  {
    CACHE_SHOP_KEY + Decimal(id)
  }

  /** getById: the row with that primary key, if any. */
  function GetById(shops: map<int, Shop>, id: int): Option<Shop>
  {
    if id in shops then Some(shops[id]) else None
  }

  /** `JSONUtil.toBean(json, Shop.class)` on a non-blank reply; only a shop's JSON decodes. */
  function DecodeShop(v: Value): Outcome<Option<Shop>>
  {
    if v.Json? && v.doc.ShopDoc? then Returned(Some(v.doc.shop)) else Threw
  }

  /** `JSONUtil.toBean((JSONObject) redisData.getData(), Shop.class)`. */
  function DataAsShop(data: Option<Doc>): Outcome<Option<Shop>>
  {
    match data
    case None => Returned(None)
    case Some(ShopDoc(s)) => Returned(Some(s))
    case Some(_) => Threw
  }

  /** The JSON document of a shop that may be null. */
  function ShopData(s: Option<Shop>): Option<Doc>
  {
    match s
    case None => None
    case Some(shop) => Some(ShopDoc(shop))
  }

  /** getById as the fallback handed to CacheClient: the row as a document. */
  function ShopFallback(shops: map<int, Shop>): int -> Option<Doc>
  {
    (i: int) => ShopData(GetById(shops, i))
  }

  /** A generic cache answer read as `Shop.class`: a document that is not a shop fails. */
  function ToShop(r: Outcome<Option<Doc>>): Outcome<Option<Shop>>
  {
    match r
    case Threw => Threw
    case Returned(None) => Returned(None)
    case Returned(Some(ShopDoc(s))) => Returned(Some(s))
    case Returned(Some(_)) => Threw
  }

  lemma ShopAndLockKeysDiffer(id: int)
    ensures ShopKey(id) != LockKey(id)
  {
    DistinctPrefixes(CACHE_SHOP_KEY, LOCK_SHOP_KEY, Decimal(id), Decimal(id));
  }

  // ---- trylock / unlock --------------------------------------------------------------------

  /** trylock: the same SET NX EX 10 as CacheClient's. */
  method TryLock(b: Backend, key: string, now: int) returns (ok: bool)
    modifies b`cache
    ensures Locked(ok, b.cache) == TryLockSpec(old(b.cache), key, now, b.connected)
  {
    var flag := b.SetNx(key, Text("1"), TRYLOCK_TTL, now);
    ok := flag == Some(true);
  }

  method Unlock(b: Backend, key: string)
    modifies b`cache
    ensures b.cache == old(b.cache) - {key}
  {
    b.Delete(key);
  }

  // ---- queryWithPassThrough ----------------------------------------------------------------

  datatype ShopRead = ShopRead(result: Outcome<Option<Shop>>, cache: map<string, Entry>, loaded: bool)

  function PassThroughSpec(cache: map<string, Entry>, shops: map<int, Shop>, id: int, now: int): ShopRead
  {
    var key := ShopKey(id);
    var json := Lookup(cache, key, now);
    if !IsBlank(json) then ShopRead(DecodeShop(json.value), cache, false)
    else if json.Some? then ShopRead(Returned(None), cache, false)
    else
      match GetById(shops, id)
      case None => ShopRead(Returned(None), SetEx(cache, key, Text(""), CACHE_NULL_TTL * 60, now), true)
      case Some(s) => ShopRead(Returned(Some(s)), SetEx(cache, key, Json(ShopDoc(s)), CACHE_SHOP_TTL * 60, now), true)
  }

  method QueryWithPassThrough(b: Backend, id: int, now: int) returns (shop: Outcome<Option<Shop>>, loaded: bool)
    modifies b`cache
    ensures ShopRead(shop, b.cache, loaded) == PassThroughSpec(old(b.cache), b.shops, id, now)
  {
    var key := CACHE_SHOP_KEY + Decimal(id);
    var shopJson := b.Get(key, now);
    loaded := false;
    if !IsBlank(shopJson) {
      shop := DecodeShop(shopJson.value);
      return;
    }
    if shopJson.Some? {
      shop := Returned(None);
      return;
    }
    var s := GetById(b.shops, id);
    loaded := true;
    if s.None? {
      b.Set(key, Text(""), CACHE_NULL_TTL * 60, now);
      shop := Returned(None);
      return;
    }
    b.Set(key, Json(ShopDoc(s.value)), CACHE_SHOP_TTL * 60, now);
    shop := Returned(s);
  }

  /** A hit is served without the database; a "" marker gives null; a miss loads the row,
      caches a "" marker for CACHE_NULL_TTL minutes when there is none, and its JSON for
      CACHE_SHOP_TTL minutes when there is. */
  lemma PassThroughCases(cache: map<string, Entry>, shops: map<int, Shop>, id: int, now: int)
    ensures var r := PassThroughSpec(cache, shops, id, now);
            var json := Lookup(cache, ShopKey(id), now);
      && (json.Some? ==> !r.loaded && r.cache == cache)
      && (json.Some? && json.value.Json? && json.value.doc.ShopDoc? ==> r.result == Returned(Some(json.value.doc.shop)))
      && (json == Some(Text("")) ==> r.result == Returned(None))
      && (json.None? ==> r.loaded && r.result == Returned(GetById(shops, id)))
      && (json.None? && id !in shops ==> r.cache == cache[ShopKey(id) := Entry(Text(""), Some(now + 120))])
      && (json.None? && id in shops ==> r.cache == cache[ShopKey(id) := Entry(Json(ShopDoc(shops[id])), Some(now + 1800))])
  {
  }

  /** queryWithPassThrough is CacheClient.queryWithNullPassThrough specialised to shops: the same
      writes, the same database calls and the same answer, as long as the key does not hold
      some other document. */
  lemma PassThroughIsNullPassThrough(cache: map<string, Entry>, shops: map<int, Shop>, id: int, now: int)
    requires var json := Lookup(cache, ShopKey(id), now); json.Some? && json.value.Json? ==> json.value.doc.ShopDoc?
    ensures var p := PassThroughSpec(cache, shops, id, now);
            var g := NullPassThroughSpec(cache, id, CACHE_SHOP_KEY, CACHE_SHOP_TTL, Minutes, ShopFallback(shops), now);
      p == ShopRead(ToShop(g.result), g.cache, g.loaded)
  {
  }

  // ---- queryWithMutex ----------------------------------------------------------------------

  /** A mutex read's answer, the cache after it, whether it loaded the row, and whether the
      nested queryById submitted a rebuild. */
  datatype MutexRead = MutexRead(result: Outcome<Option<Shop>>, cache: map<string, Entry>, loaded: bool, rebuild: bool)

  /** queryWithMutex(id) at `now`. On a miss it tries the lock; a loser sleeps and calls queryById
      (CacheClient.queryWithLoginExpired on the same key) and then carries on anyway. `race`
      is what other clients did to the key right after the lock attempt. */
  function MutexSpec(cache: map<string, Entry>, shops: map<int, Shop>, id: int, now: int,
                     connected: bool, race: Race): MutexRead
  {
    var key := ShopKey(id);
    var json := Lookup(cache, key, now);
    if !IsBlank(json) then MutexRead(DecodeShop(json.value), cache, false, false)
    else if json.Some? then MutexRead(Returned(None), cache, false, false)
    else
      var lock := TryLockSpec(cache, LockKey(id), now, connected);
      var raced := ApplyRace(lock.cache, key, race);
      if lock.ok then DoubleCheckSpec(raced, shops, id, now, false)
      else
        var nested := LogicalExpireSpec(raced, CACHE_SHOP_KEY, id, now, connected, Quiet);
        if nested.result.Threw? then MutexRead(Threw, nested.cache - {LockKey(id)}, false, nested.rebuild)
        else DoubleCheckSpec(nested.cache, shops, id, now, nested.rebuild)
  }

  /** From the double check on, with the finally block's unlock: a non-blank key is served;
      otherwise the row is loaded and cached, as a "" marker when it is missing. */
  function DoubleCheckSpec(cache: map<string, Entry>, shops: map<int, Shop>, id: int, now: int,
                           rebuild: bool): MutexRead
  {
    var key := ShopKey(id);
    var json := Lookup(cache, key, now);
    if !IsBlank(json) then MutexRead(DecodeShop(json.value), cache - {LockKey(id)}, false, rebuild)
    else
      match GetById(shops, id)
      case None => MutexRead(Returned(None), SetEx(cache, key, Text(""), CACHE_NULL_TTL * 60, now) - {LockKey(id)}, true, rebuild)
      case Some(s) => MutexRead(Returned(Some(s)), SetEx(cache, key, Json(ShopDoc(s)), CACHE_SHOP_TTL * 60, now) - {LockKey(id)}, true, rebuild)
  }

  method QueryWithMutex(b: Backend, id: int, now: int, race: Race)
    returns (shop: Outcome<Option<Shop>>, loaded: bool, rebuild: bool)
    modifies b`cache
    ensures MutexRead(shop, b.cache, loaded, rebuild) == MutexSpec(old(b.cache), b.shops, id, now, b.connected, race)
  {
    var key := CACHE_SHOP_KEY + Decimal(id);
    var shopJson := b.Get(key, now);
    loaded, rebuild := false, false;
    if !IsBlank(shopJson) {
      shop := DecodeShop(shopJson.value);
      return;
    }
    if shopJson.Some? {
      shop := Returned(None);
      return;
    }
    var lockKey := LOCK_SHOP_KEY + Decimal(id);
    var isLock := TryLock(b, lockKey, now);
    b.Interleave(key, race);
    if !isLock {
      var nested;
      nested, rebuild := CacheClient.QueryWithLogicalExpire(b, CACHE_SHOP_KEY, id, now, Quiet);
      if nested.Threw? {
        Unlock(b, lockKey);
        shop := Threw;
        return;
      }
    }
    shopJson := b.Get(key, now);
    if !IsBlank(shopJson) {
      Unlock(b, lockKey);
      shop := DecodeShop(shopJson.value);
      Unlock(b, lockKey);
      return;
    }
    var s := GetById(b.shops, id);
    loaded := true;
    if s.None? {
      b.Set(key, Text(""), CACHE_NULL_TTL * 60, now);
      shop := Returned(None);
      Unlock(b, lockKey);
      return;
    }
    b.Set(key, Json(ShopDoc(s.value)), CACHE_SHOP_TTL * 60, now);
    Unlock(b, lockKey);
    shop := Returned(s);
  }

  /** A hit and a "" marker are answered from the cache, without the lock or the database. */
  lemma MutexHit(cache: map<string, Entry>, shops: map<int, Shop>, id: int, now: int, connected: bool, race: Race)
    requires Lookup(cache, ShopKey(id), now).Some?
    ensures var r := MutexSpec(cache, shops, id, now, connected, race);
      && r.cache == cache && !r.loaded && !r.rebuild
      && (Lookup(cache, ShopKey(id), now) == Some(Text("")) ==> r.result == Returned(None))
      && (forall s :: Lookup(cache, ShopKey(id), now) == Some(Json(ShopDoc(s))) ==> r.result == Returned(Some(s)))
  {
  }

  /** A miss with the lock won and nobody else writing: the row is loaded and cached (a ""
      marker for CACHE_NULL_TTL minutes, or its JSON for CACHE_SHOP_TTL minutes) and the lock is
      released. */
  lemma MutexMiss(cache: map<string, Entry>, shops: map<int, Shop>, id: int, now: int)
    requires Lookup(cache, ShopKey(id), now).None? && Lookup(cache, LockKey(id), now).None?
    ensures var r := MutexSpec(cache, shops, id, now, true, Quiet);
      && r.loaded && !r.rebuild
      && r.result == Returned(GetById(shops, id))
      && r.cache == cache[ShopKey(id) := Entry(if id in shops then Json(ShopDoc(shops[id])) else Text(""),
                                                Some(now + if id in shops then 1800 else 120))] - {LockKey(id)}
  {
    ShopAndLockKeysDiffer(id);
    var lock := TryLockSpec(cache, LockKey(id), now, true);
    assert Lookup(lock.cache, ShopKey(id), now).None?;
  }

  /** After a miss, the next query within the TTL is a hit that gives the same answer without
      the database. */
  lemma MutexRoundTrip(cache: map<string, Entry>, shops: map<int, Shop>, id: int, t1: int, t2: int,
                       connected: bool, race: Race)
    requires Lookup(cache, ShopKey(id), t1).None? && Lookup(cache, LockKey(id), t1).None?
    requires t1 <= t2 < t1 + (if id in shops then 1800 else 120)
    ensures var r1 := MutexSpec(cache, shops, id, t1, true, Quiet);
            var r2 := MutexSpec(r1.cache, shops, id, t2, connected, race);
      r2 == MutexRead(Returned(GetById(shops, id)), r1.cache, false, false)
  {
    MutexMiss(cache, shops, id, t1);
    ShopAndLockKeysDiffer(id);
    var r1 := MutexSpec(cache, shops, id, t1, true, Quiet);
    assert ShopKey(id) in r1.cache && Alive(r1.cache[ShopKey(id)], t2);
  }

  /** The double check: when another client cached the shop between the lock attempt and the
      second read, the lock winner serves it without the database. */
  lemma MutexDoubleCheck(cache: map<string, Entry>, shops: map<int, Shop>, id: int, now: int,
                         s: Shop, expireAt: Option<int>)
    requires Lookup(cache, ShopKey(id), now).None? && Lookup(cache, LockKey(id), now).None?
    requires Alive(Entry(Json(ShopDoc(s)), expireAt), now)
    ensures var r := MutexSpec(cache, shops, id, now, true, Wrote(Entry(Json(ShopDoc(s)), expireAt)));
      r.result == Returned(Some(s)) && !r.loaded && LockKey(id) !in r.cache
  {
    ShopAndLockKeysDiffer(id);
  }

  /** A caller that fails to get the lock does not wait for the holder: after the nested
      queryById (which finds nothing) it loads the row itself, and its finally block deletes
      the lock key that the other client holds. */
  lemma MutexLoserFallsThrough(cache: map<string, Entry>, shops: map<int, Shop>, id: int, now: int, connected: bool)
    requires Lookup(cache, ShopKey(id), now).None? && Lookup(cache, LockKey(id), now).Some?
    ensures var r := MutexSpec(cache, shops, id, now, connected, Quiet);
      && r.loaded && !r.rebuild
      && r.result == Returned(GetById(shops, id))
      && LockKey(id) !in r.cache
  {
  }

  /** For a lock loser the nested queryById reads the key as a RedisData, so a plain shop JSON
      that another client cached meanwhile makes the whole query throw. */
  lemma MutexLoserThrowsOnPlainShop(cache: map<string, Entry>, shops: map<int, Shop>, id: int, now: int,
                                    connected: bool, s: Shop, expireAt: Option<int>)
    requires Lookup(cache, ShopKey(id), now).None? && Lookup(cache, LockKey(id), now).Some?
    requires Alive(Entry(Json(ShopDoc(s)), expireAt), now)
    ensures var r := MutexSpec(cache, shops, id, now, connected, Wrote(Entry(Json(ShopDoc(s)), expireAt)));
      r.result == Threw && !r.loaded && LockKey(id) !in r.cache
  {
    ShopAndLockKeysDiffer(id);
  }

  /** The nested queryById never submits a rebuild: it is only called after the lock attempt
      failed, and the lock key is still as it was then. */
  lemma MutexNeverRebuilds(cache: map<string, Entry>, shops: map<int, Shop>, id: int, now: int,
                           connected: bool, race: Race)
    ensures !MutexSpec(cache, shops, id, now, connected, race).rebuild
  {
    var key := ShopKey(id);
    var json := Lookup(cache, key, now);
    if IsBlank(json) && json.None? {
      var lock := TryLockSpec(cache, LockKey(id), now, connected);
      if !lock.ok {
        var raced := ApplyRace(lock.cache, key, race);
        ShopAndLockKeysDiffer(id);
        assert Lookup(raced, LockKey(id), now) == Lookup(cache, LockKey(id), now);
        assert !TryLockSpec(raced, LockKey(id), now, connected).ok;
      }
    }
  }

  // ---- queryWithLoginExpire and saveShop2Redis ---------------------------------------------

  datatype ShopLogicalRead = ShopLogicalRead(result: Outcome<Option<Shop>>, cache: map<string, Entry>, rebuild: bool)

  /** queryWithLoginExpire(id) at `now`; `rebuild` means saveShop2Redis(id, 20) was submitted. */
  function LogicalSpec(cache: map<string, Entry>, id: int, now: int, connected: bool, race: Race): ShopLogicalRead
  {
    var key := ShopKey(id);
    var json := Lookup(cache, key, now);
    if IsBlank(json) then ShopLogicalRead(Returned(None), cache, false)
    else
      match AsRedisData(json.value)
      case None => ShopLogicalRead(Threw, cache, false)
      case Some(redisData) =>
        var shop := DataAsShop(redisData.data);
        if shop.Threw? then ShopLogicalRead(Threw, cache, false)
        else if redisData.expireTime > now then ShopLogicalRead(shop, cache, false)
        else
          var lock := TryLockSpec(cache, LockKey(id), now, connected);
          var raced := ApplyRace(lock.cache, key, race);
          var released := raced - {LockKey(id)};
          var latestJson := Lookup(raced, key, now);
          if IsBlank(latestJson) then ShopLogicalRead(shop, released, lock.ok)
          else
            match AsRedisData(latestJson.value)
            case None => ShopLogicalRead(Threw, released, false)
            case Some(latest) =>
              if latest.expireTime > now then ShopLogicalRead(DataAsShop(latest.data), released, false)
              else ShopLogicalRead(shop, released, lock.ok)
  }

  method QueryWithLogicalExpire(b: Backend, id: int, now: int, race: Race)
    returns (shop: Outcome<Option<Shop>>, rebuild: bool)
    modifies b`cache
    ensures ShopLogicalRead(shop, b.cache, rebuild) == LogicalSpec(old(b.cache), id, now, b.connected, race)
  {
    var key := CACHE_SHOP_KEY + Decimal(id);
    var shopJson := b.Get(key, now);
    rebuild := false;
    if IsBlank(shopJson) {
      shop := Returned(None);
      return;
    }
    var redisData := AsRedisData(shopJson.value);
    if redisData.None? {
      shop := Threw;
      return;
    }
    shop := DataAsShop(redisData.value.data);
    if shop.Threw? || redisData.value.expireTime > now {
      return;
    }
    var lockKey := LOCK_SHOP_KEY + Decimal(id);
    var isLock := TryLock(b, lockKey, now);
    b.Interleave(key, race);
    shopJson := b.Get(key, now);
    var served := false;
    if !IsBlank(shopJson) {
      var latest := AsRedisData(shopJson.value);
      if latest.None? {
        shop, served := Threw, true;
      } else if latest.value.expireTime > now {
        Unlock(b, lockKey);
        shop, served := DataAsShop(latest.value.data), true;
      }
    }
    if !served && isLock {
      rebuild := true;
    }
    Unlock(b, lockKey);
  }

  /** What saveShop2Redis stores: the row (or null) wrapped in a RedisData expiring
      `expiredSeconds` from now, with no Redis TTL. */
  function SavedEntry(shops: map<int, Shop>, id: int, expiredSeconds: int, now: int): Entry
  {
    Entry(Json(RedisDataDoc(RedisData(now + expiredSeconds, ShopData(GetById(shops, id))))), None)
  }

  method SaveShop2Redis(b: Backend, id: int, expiredSeconds: int, now: int)
    modifies b`cache
    ensures b.cache == old(b.cache)[ShopKey(id) := SavedEntry(b.shops, id, expiredSeconds, now)]
  {
    var shop := GetById(b.shops, id);
    var redisData := RedisData(now + expiredSeconds, ShopData(shop));
    b.SetPersistent(CACHE_SHOP_KEY + Decimal(id), Json(RedisDataDoc(redisData)));
  }

  /** A cached RedisData wraps a shop or null, if it is a RedisData at all. */
  predicate WrapsShop(json: Option<Value>)
  {
    json.Some? && AsRedisData(json.value).Some? ==>
      var data := AsRedisData(json.value).value.data;
      data.None? || data.value.ShopDoc?
  }

  /** queryWithLoginExpire is CacheClient.queryWithLoginExpired with the shop key prefix, read
      as `Shop.class`: the same writes, the same rebuild decision, the same answer, when the
      RedisData in the cache wraps a shop. */
  lemma LogicalIsCacheClient(cache: map<string, Entry>, id: int, now: int, connected: bool, race: Race)
    requires WrapsShop(Lookup(cache, ShopKey(id), now))
    ensures var s := LogicalSpec(cache, id, now, connected, race);
            var g := LogicalExpireSpec(cache, CACHE_SHOP_KEY, id, now, connected, race);
      s == ShopLogicalRead(ToShop(g.result), g.cache, g.rebuild)
  {
    forall d: Option<Doc> ensures DataAsShop(d) == ToShop(DecodeData(d)) {
    }
    var key := ShopKey(id);
    var json := Lookup(cache, key, now);
    if !IsBlank(json) && AsRedisData(json.value).Some? {
      var redisData := AsRedisData(json.value).value;
      var t := DecodeData(redisData.data);
      if t.Returned? && redisData.expireTime <= now {
        var g := StaleSpec(cache, key, LockKey(id), now, connected, race, t.value);
        assert g == LogicalExpireSpec(cache, CACHE_SHOP_KEY, id, now, connected, race);
        assert ToShop(Returned(t.value)) == DataAsShop(redisData.data);
        var lock := TryLockSpec(cache, LockKey(id), now, connected);
        var raced := ApplyRace(lock.cache, key, race);
        var latestJson := Lookup(raced, key, now);
        if !IsBlank(latestJson) && AsRedisData(latestJson.value).Some? {
          var latest := AsRedisData(latestJson.value).value;
          assert DataAsShop(latest.data) == ToShop(DecodeData(latest.data));
          var sr := LogicalSpec(cache, id, now, connected, race);
          if latest.expireTime > now {
            assert g == LogicalRead(DecodeData(latest.data), raced - {LockKey(id)}, false);
            assert sr == ShopLogicalRead(DataAsShop(latest.data), raced - {LockKey(id)}, false);
          } else {
            assert g == LogicalRead(Returned(t.value), raced - {LockKey(id)}, lock.ok);
            assert sr == ShopLogicalRead(DataAsShop(redisData.data), raced - {LockKey(id)}, lock.ok);
          }
        }
      }
    }
  }

  /** What saveShop2Redis stored is served as the row while its logical expiry is ahead. Once
      that has passed, since nothing expires the key, every reader gets the stale row, a rebuild
      is submitted exactly when the lock is won, and the lock key is deleted either way. */
  lemma SavedEntryReads(cache: map<string, Entry>, shops: map<int, Shop>, id: int, expiredSeconds: int,
                        t1: int, t2: int, connected: bool)
    requires t1 <= t2
    ensures var saved := cache[ShopKey(id) := SavedEntry(shops, id, expiredSeconds, t1)];
            var r := LogicalSpec(saved, id, t2, connected, Quiet);
      && r.result == Returned(GetById(shops, id))
      && (t2 < t1 + expiredSeconds ==> r.cache == saved && !r.rebuild)
      && (t1 + expiredSeconds <= t2 ==>
            && (r.rebuild <==> connected && Lookup(cache, LockKey(id), t2).None?)
            && r.cache == saved - {LockKey(id)})
  {
    var saved := cache[ShopKey(id) := SavedEntry(shops, id, expiredSeconds, t1)];
    ShopAndLockKeysDiffer(id);
    assert Lookup(saved, ShopKey(id), t2) == Some(SavedEntry(shops, id, expiredSeconds, t1).value);
    assert Lookup(saved, LockKey(id), t2) == Lookup(cache, LockKey(id), t2);
    if t1 + expiredSeconds <= t2 {
      var lock := TryLockSpec(saved, LockKey(id), t2, connected);
      assert Lookup(lock.cache, ShopKey(id), t2) == Lookup(saved, ShopKey(id), t2);
      if lock.ok {
        assert lock.cache - {LockKey(id)} == saved - {LockKey(id)};
      }
    }
  }

  /** The rebuild cycle: a stale read that won the lock submits saveShop2Redis(id, 20); once
      that has run, reads within 20 seconds are served the row as it is in the database. */
  lemma RebuildCycle(cache: map<string, Entry>, shops: map<int, Shop>, id: int, t1: int, t2: int,
                     connected: bool, race: Race)
    requires t1 <= t2 < t1 + 20
    ensures var rebuilt := cache[ShopKey(id) := SavedEntry(shops, id, 20, t1)];
      LogicalSpec(rebuilt, id, t2, connected, race) == ShopLogicalRead(Returned(GetById(shops, id)), rebuilt, false)
  {
    var rebuilt := cache[ShopKey(id) := SavedEntry(shops, id, 20, t1)];
    assert Lookup(rebuilt, ShopKey(id), t2) == Some(SavedEntry(shops, id, 20, t1).value);
  }

  // ---- updateShop --------------------------------------------------------------------------

  datatype Update = Update(response: Response, shops: map<int, Shop>, cache: map<string, Entry>)

  /** updateById: the non-null columns are written into the row with that id; no row, no
      change. */
  function UpdateById(shops: map<int, Shop>, shop: Shop): map<int, Shop>
    requires shop.id.Some?
  {
    var id := shop.id.value;
    if id in shops then shops[id := Shop(shops[id].id, shops[id].columns + shop.columns)] else shops
  }

  function UpdateSpec(shops: map<int, Shop>, cache: map<string, Entry>, shop: Shop): Update
  {
    if shop.id.None? then Update(Fail("店铺id不能为空"), shops, cache)
    else Update(Ok(None), UpdateById(shops, shop), cache - {ShopKey(shop.id.value)})
  }

  method UpdateShop(b: Backend, shop: Shop) returns (r: Response)
    modifies b`shops, b`cache
    ensures Update(r, b.shops, b.cache) == UpdateSpec(old(b.shops), old(b.cache), shop)
  {
    var id := shop.id;
    if id.None? {
      return Fail("店铺id不能为空");
    }
    b.shops := UpdateById(b.shops, shop);
    b.Delete(CACHE_SHOP_KEY + Decimal(id.value));
    r := Ok(None);
  }

  /** Without an id nothing is written; with one, the row gets the new columns, the cached copy
      is gone, and no other shop or key changes. */
  lemma UpdateEffects(shops: map<int, Shop>, cache: map<string, Entry>, shop: Shop)
    ensures var u := UpdateSpec(shops, cache, shop);
      && (shop.id.None? ==> u == Update(Fail("店铺id不能为空"), shops, cache))
      && (shop.id.Some? ==>
            && u.response == Ok(None)
            && ShopKey(shop.id.value) !in u.cache
            && (forall k :: k != ShopKey(shop.id.value) && k in cache ==> k in u.cache && u.cache[k] == cache[k])
            && u.shops.Keys == shops.Keys
            && (forall i :: i in shops && i != shop.id.value ==> u.shops[i] == shops[i])
            && (shop.id.value in shops ==>
                  && (forall c :: c in shop.columns ==> u.shops[shop.id.value].columns[c] == shop.columns[c])
                  && (forall c :: c in shops[shop.id.value].columns && c !in shop.columns ==>
                        c in u.shops[shop.id.value].columns &&
                        u.shops[shop.id.value].columns[c] == shops[shop.id.value].columns[c])))
  {
  }

  /** Cache-aside consistency: a read after the update misses the cache and serves the updated
      row from the database, whatever was cached before. */
  lemma UpdateThenRead(shops: map<int, Shop>, cache: map<string, Entry>, shop: Shop, now: int)
    requires shop.id.Some? && shop.id.value in shops
    ensures var u := UpdateSpec(shops, cache, shop);
            var r := PassThroughSpec(u.cache, u.shops, shop.id.value, now);
      r.loaded && r.result == Returned(Some(UpdateById(shops, shop)[shop.id.value]))
  {
  }
}
