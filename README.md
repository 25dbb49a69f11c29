# hmdp core in Dafny

This project models the caching, locking, id-generation and flash-sale order core of the
hmdp ("dianping") Spring Boot service.

- **Redis and the database.** These are one `Redis.Backend` object. It holds the string keyspace with
  absolute expiry times, the `tb_shop`, `tb_shop_type`, `tb_seckill_voucher.stock` and
  `tb_voucher_order` tables, and the stream `stream.orders` with its consumer group's
  delivery position and pending list.
- **State changes.** Each Redis command is a method of `Backend`. `OrderService` is a class
  over one `Backend`. The other service operations are module-level methods that take the
  `Backend` as a parameter. Each of these methods has an `ensures` that ties the new state
  and the result to a pure specification function of the old state, and lemmas about those
  functions state the properties.
- **Clock and exceptions.** The clock is a parameter (`now`, in seconds). A Java exception
  is the `Threw` outcome.

The modules follow the source files:

- `JavaNumbers` covers the Java `long`/`int` arithmetic the id worker and the admission code
  rely on: wrap-around, `<< 32`, `>> 32`, `|`, `&` and `intValue()`.
- `Redis` holds the data model, the Redis commands used (GET, SET EX, SET NX EX, DEL, INCR,
  XREADGROUP, XACK) and the `Backend` class.
- `RedisIdWorker`: `nextId` composes a 31-bit timestamp and a 32-bit per-day counter.
- `SimpleRedisLock`: a `SET NX EX` lock whose value is the holder's token. It is released by
  compare-and-delete, as in the Java reference version of `unlock`.
- `CacheClient`: the generic read-through cache. It has null pass-through (a `""` marker for
  missing rows) and logical expiry (a `RedisData` wrapper with an expiry field, rebuilt
  asynchronously under a `SET NX` lock).
- `ShopService`: the shop cache read three ways (pass-through, mutex, logical expiry),
  `saveShop2Redis`, and the cache-aside `updateShop`.
- `ShopTypeService`: the shop-type list, which is cached whole and sorted by `sort`.
- `VoucherOrderService`: the flash-sale admission result, `createVoucherOrder` as one
  transaction, and the stream consumer: the run loop's body, `handleVoucherOrder` and
  `handlePendingList`.

The source has some behaviours that look accidental. They are modelled as written, and
lemmas state them:

- **Lock keys are deleted unconditionally.** The `finally` blocks of the shop queries delete
  the lock key whether or not this caller holds it. See `ShopService.MutexLoserFallsThrough`
  and `CacheClient.TwoStaleReadersBothRebuild`.
- **A mutex loser carries on.** After a lost lock, `queryWithMutex` calls `queryById` and then
  continues to the database instead of returning.
- **The order handler ignores a failed lock.** When `tryLock` fails, `handleVoucherOrder`
  creates the order anyway. The unlock of a lock it does not hold then throws, leaving the
  entry unacknowledged (`VoucherOrderService.HandleProceedsWithoutLock`).
- **`setWithLoginExpired` sets a Redis TTL.** It stores its `RedisData` with a Redis TTL equal to
  the logical expiry, so such an entry vanishes before it can ever be served stale
  (`CacheClient.LogicalEntryNeverStale`).
- **The consumer needs a proxy first.** The consumer depends on a `proxy` field that only a
  successful `seckillVoucher` sets. Until then every handling throws, and the pending list
  cannot drain (`VoucherOrderService.DrainStuckWithoutProxy`).

The `seckillVoucher` method returns `Result.ok()` without the order id, and the model
follows the code there. The `RedisData.expireTime` field is an absolute second on the same
clock as `now`.

## Model

Source paths are relative to the repository root.

| member | source | states |
|---|---|---|
| JavaNumbers.ToLong | src/main/java/com/hmdp/utils/RedisIdWorker.java:43 | the `long` result is congruent to its argument modulo 2^64 and equals it when it is in `long` range |
| JavaNumbers.ToInt | src/main/java/com/hmdp/service/impl/VoucherOrderServiceImpl.java:216 | `Long.intValue()`: the result is an `int`, congruent to the `long` modulo 2^32, and unchanged when already in `int` range |
| JavaNumbers.OrDisjoint | src/main/java/com/hmdp/utils/RedisIdWorker.java:43 | or-ing a number below 2^k into a multiple of 2^k is addition, so the timestamp and count bits do not overlap |
| JavaNumbers.AndLowMask | src/main/java/com/hmdp/utils/RedisIdWorker.java:21 | masking with 2^k - 1 recovers exactly the low k bits |
| RedisIdWorker.Layout | src/main/java/com/hmdp/utils/RedisIdWorker.java:21 | with a 31-bit timestamp and a 32-bit count the id is timestamp * 2^32 + count, with the sign bit 0 |
| RedisIdWorker.RoundTrip | src/main/java/com/hmdp/utils/RedisIdWorker.java:43 | `id >> 32` gives back the timestamp and `id & 0xFFFFFFFF` gives back the count |
| RedisIdWorker.Ordered | src/main/java/com/hmdp/utils/RedisIdWorker.java:43 | ids are ordered by timestamp first and count second, in both directions |
| RedisIdWorker.NextId | src/main/java/com/hmdp/utils/RedisIdWorker.java:27-44 | the id and the new keyspace are those of one INCR of "icr:" + key + ":" + day, composed with now - BEGIN_TIMESTAMP; a failed INCR is an exception |
| RedisIdWorker.NextIdFields | src/main/java/com/hmdp/utils/RedisIdWorker.java:33-43 | one call yields a non-negative id whose timestamp field is now - BEGIN_TIMESTAMP and whose count field is the day's counter plus one; that counter goes up by exactly one and every other key reads as before |
| RedisIdWorker.CounterKeysDiffer | src/main/java/com/hmdp/utils/RedisIdWorker.java:39-41 | different days use different counter keys |
| RedisIdWorker.TwoCallsUnique | src/main/java/com/hmdp/utils/RedisIdWorker.java:27-44 | two calls with a clock that does not go backwards give different ids, and the second is larger, on the same day and across days |
| Redis.Incr | src/main/java/com/hmdp/utils/RedisIdWorker.java:41 | INCR: on success the key reads as the new count; an error changes nothing; no other key's reading changes |
| Redis.SetIfAbsent | src/main/java/com/hmdp/utils/SimpleRedisLock.java:33-34 | SET NX EX succeeds exactly when the client is connected and the key reads as absent; it then stores exactly that key, with the value, expiring at now + ttl, and otherwise changes nothing |
| Redis.Backend.SetNx | src/main/java/com/hmdp/utils/SimpleRedisLock.java:33-35 | the reply and the new keyspace are `SetIfAbsent`'s |
| Redis.Backend.Increment | src/main/java/com/hmdp/utils/RedisIdWorker.java:41 | the reply and the new keyspace are `Incr`'s |
| SimpleRedisLock.Lock.TryLock | src/main/java/com/hmdp/utils/SimpleRedisLock.java:30-36 | true exactly when SET NX EX of "lock:" + name with the thread's token succeeded; a null reply is false |
| SimpleRedisLock.Lock.Unlock | src/main/java/com/hmdp/utils/SimpleRedisLock.java:57-66 | deletes the lock key only when it holds this thread's token; otherwise the keyspace is unchanged |
| SimpleRedisLock.TryLockIffFree | src/main/java/com/hmdp/utils/SimpleRedisLock.java:30-36 | acquisition succeeds iff the client is connected and the key is free, and then the key holds this token for the TTL |
| SimpleRedisLock.TryLockHeldKeepsToken | src/main/java/com/hmdp/utils/SimpleRedisLock.java:33-35 | a held lock is not taken over: the attempt fails and the holder's token stays |
| SimpleRedisLock.NullReplyIsFailure | src/main/java/com/hmdp/utils/SimpleRedisLock.java:35 | a null reply (no connection) is a failed attempt that writes nothing |
| SimpleRedisLock.UnlockByHolder | src/main/java/com/hmdp/utils/SimpleRedisLock.java:58-66 | the holder's unlock removes exactly the lock key |
| SimpleRedisLock.UnlockByOther | src/main/java/com/hmdp/utils/SimpleRedisLock.java:61-65 | an unlock by a thread whose token is not stored changes nothing, so another holder keeps its lock |
| SimpleRedisLock.LockThenUnlock | src/main/java/com/hmdp/utils/SimpleRedisLock.java:30-66 | acquiring a free lock and releasing it before the lease ends leaves the lock key absent and every other key as it was |
| SimpleRedisLock.LateUnlockIsHarmless | src/main/java/com/hmdp/utils/SimpleRedisLock.java:58-66 | after the lease expired and another thread took the lock, the first thread's unlock leaves the new holder's lock in place |
| CacheClient.TryLockSpec | src/main/java/com/hmdp/utils/CacheClient.java:152-162 | trylock succeeds iff connected and the key is free; it then stores "1" for 10 s and otherwise writes nothing |
| CacheClient.TryLock | src/main/java/com/hmdp/utils/CacheClient.java:152-162 | the reply and the keyspace are `TryLockSpec`'s |
| CacheClient.Unlock | src/main/java/com/hmdp/utils/CacheClient.java:163-165 | the key is removed, whoever set it |
| CacheClient.Set | src/main/java/com/hmdp/utils/CacheClient.java:31-33 | the value's JSON is stored under the key with the TTL converted to seconds |
| CacheClient.LogicalEntry | src/main/java/com/hmdp/utils/CacheClient.java:36-42 | the stored value reads back as a RedisData whose expiry is now + the converted TTL and whose data is the value, and the Redis entry expires at the same moment |
| CacheClient.SetWithLogicalExpire | src/main/java/com/hmdp/utils/CacheClient.java:36-42 | exactly that entry is stored under the key, and nothing else changes |
| CacheClient.QueryWithNullPassThrough | src/main/java/com/hmdp/utils/CacheClient.java:45-84 | the answer, the cache writes and whether the database was called are those of `NullPassThroughSpec` |
| CacheClient.NullPassThroughHit | src/main/java/com/hmdp/utils/CacheClient.java:53-56 | a cached document is decoded and returned without the database and without writes |
| CacheClient.NullPassThroughMarker | src/main/java/com/hmdp/utils/CacheClient.java:58-60 | a cached blank string is a "no such row" marker: null, without the database and without writes |
| CacheClient.NullPassThroughMiss | src/main/java/com/hmdp/utils/CacheClient.java:62-83 | a miss calls the database once and returns its row; a missing row is cached as "" for CACHE_NULL_TTL minutes, a present one as JSON for the caller's TTL |
| CacheClient.NullPassThroughRoundTrip | src/main/java/com/hmdp/utils/CacheClient.java:45-84 | within the TTL of what a miss wrote, the next query gives the same answer without the database, even if the database changed |
| CacheClient.NullMarkerExpires | src/main/java/com/hmdp/utils/CacheClient.java:68-74 | once the marker's two minutes are over, the database is asked again |
| CacheClient.QueryWithLogicalExpire | src/main/java/com/hmdp/utils/CacheClient.java:88-150 | the answer, the cache and the rebuild decision are those of `LogicalExpireSpec`, with other clients' writes between the lock attempt and the re-read given as `race` |
| CacheClient.RebuildLogical | src/main/java/com/hmdp/utils/CacheClient.java:133-142 | the submitted task stores the reloaded row as a fresh logical-expiry entry, and nothing else |
| CacheClient.LogicalBlank | src/main/java/com/hmdp/utils/CacheClient.java:97-99 | a blank or missing key answers null, with no write and no rebuild |
| CacheClient.LogicalFresh | src/main/java/com/hmdp/utils/CacheClient.java:107-115 | a RedisData whose expiry is still ahead is served as its data, with no lock, no write and no rebuild |
| CacheClient.LogicalStale | src/main/java/com/hmdp/utils/CacheClient.java:117-149 | an expired value with nobody else writing is returned stale; a rebuild is submitted iff the client is connected and the lock was free; the lock key is deleted either way |
| CacheClient.LogicalDoubleCheck | src/main/java/com/hmdp/utils/CacheClient.java:121-130 | if another client stored a fresh RedisData before the re-read, that data is returned, with no rebuild and the lock key deleted |
| CacheClient.LogicalEntryNeverStale | src/main/java/com/hmdp/utils/CacheClient.java:36-115 | what setWithLoginExpired stored is either fresh or gone at any later time, so it never reaches the rebuild branch |
| CacheClient.TwoStaleReadersBothRebuild | src/main/java/com/hmdp/utils/CacheClient.java:131-148 | because the finally block deletes the lock at once, two successive stale readers both win the lock and both submit a rebuild |
| CacheClient.RebuildRefreshes | src/main/java/com/hmdp/utils/CacheClient.java:133-142 | after the rebuild, reads within the new TTL get the reloaded row with no rebuild |
| ShopService.TryLock | src/main/java/com/hmdp/service/impl/ShopServiceImpl.java:264-274 | the reply and the keyspace are those of `CacheClient.TryLockSpec` |
| ShopService.Unlock | src/main/java/com/hmdp/service/impl/ShopServiceImpl.java:275-277 | the key is removed, whoever set it |
| ShopService.QueryWithPassThrough | src/main/java/com/hmdp/service/impl/ShopServiceImpl.java:89-123 | the answer, the cache and the database call are those of `PassThroughSpec` |
| ShopService.PassThroughCases | src/main/java/com/hmdp/service/impl/ShopServiceImpl.java:89-123 | a hit is served without the database; "" gives null; a miss loads the row and caches "" for 2 minutes or the shop's JSON for 30 minutes |
| ShopService.PassThroughIsNullPassThrough | src/main/java/com/hmdp/service/impl/ShopServiceImpl.java:89-123 | the shop query behaves exactly as the generic CacheClient query with the shop prefix and CACHE_SHOP_TTL minutes, when the key does not hold another kind of document |
| ShopService.QueryWithMutex | src/main/java/com/hmdp/service/impl/ShopServiceImpl.java:127-184 | the answer, the cache, the database call and the nested rebuild flag are those of `MutexSpec` |
| ShopService.MutexHit | src/main/java/com/hmdp/service/impl/ShopServiceImpl.java:130-140 | a cached shop is returned and a "" marker gives null, with no lock, no database and no write |
| ShopService.MutexMiss | src/main/java/com/hmdp/service/impl/ShopServiceImpl.java:142-183 | a miss whose lock is won loads the row, caches it (or "") with its TTL, and leaves the lock key absent |
| ShopService.MutexRoundTrip | src/main/java/com/hmdp/service/impl/ShopServiceImpl.java:127-184 | after a miss, the next query within the TTL is a hit with the same answer and no database call |
| ShopService.MutexDoubleCheck | src/main/java/com/hmdp/service/impl/ShopServiceImpl.java:153-159 | a shop cached by another client after the lock attempt is served without the database, and the lock is released |
| ShopService.MutexLoserFallsThrough | src/main/java/com/hmdp/service/impl/ShopServiceImpl.java:145-182 | a lock loser does not wait: it loads the row itself, and its finally block deletes the holder's lock |
| ShopService.MutexLoserThrowsOnPlainShop | src/main/java/com/hmdp/service/impl/ShopServiceImpl.java:147-151 | when a plain shop JSON appears meanwhile, the loser's nested queryById fails to read it as a RedisData and the whole query throws |
| ShopService.MutexNeverRebuilds | src/main/java/com/hmdp/service/impl/ShopServiceImpl.java:145-151 | the nested queryById never submits a rebuild, since its own trylock is bound to fail too |
| ShopService.QueryWithLogicalExpire | src/main/java/com/hmdp/service/impl/ShopServiceImpl.java:188-248 | the answer, the cache and the rebuild decision are those of `LogicalSpec` |
| ShopService.LogicalIsCacheClient | src/main/java/com/hmdp/service/impl/ShopServiceImpl.java:188-248 | the shop's logical-expiry query behaves exactly as CacheClient.queryWithLoginExpired with the shop prefix, when the cached RedisData wraps a shop |
| ShopService.SaveShop2Redis | src/main/java/com/hmdp/service/impl/ShopServiceImpl.java:280-290 | the row (or null) is stored under the shop key as a RedisData expiring after expiredSeconds, with no Redis TTL |
| ShopService.SavedEntryReads | src/main/java/com/hmdp/service/impl/ShopServiceImpl.java:205-247 | a saved entry is served as the row; before its expiry with no write or rebuild; after it stale, with a rebuild iff connected and the lock was free, and the lock key deleted |
| ShopService.RebuildCycle | src/main/java/com/hmdp/service/impl/ShopServiceImpl.java:232-241 | once saveShop2Redis(id, 20) has run, reads within 20 s return the database row with no write and no rebuild |
| ShopService.UpdateShop | src/main/java/com/hmdp/service/impl/ShopServiceImpl.java:252-262 | the response, the tables and the cache are those of `UpdateSpec` |
| ShopService.UpdateEffects | src/main/java/com/hmdp/service/impl/ShopServiceImpl.java:252-262 | without an id it fails and writes nothing; with one, the row takes the new columns and keeps its other columns, the cached copy is deleted, and no other row or key changes |
| ShopService.UpdateThenRead | src/main/java/com/hmdp/service/impl/ShopServiceImpl.java:258-260 | a read after the update misses the cache and serves the updated row |
| ShopTypeService.OrderByAscIsSortedPermutation | src/main/java/com/hmdp/service/impl/ShopTypeServiceImpl.java:42 | the query's list is sorted by `sort` and is a permutation of the table's rows |
| ShopTypeService.QueryTypeList | src/main/java/com/hmdp/service/impl/ShopTypeServiceImpl.java:33-53 | the answer, the cache and the database call are those of `TypeListSpec` |
| ShopTypeService.TypeListHit | src/main/java/com/hmdp/service/impl/ShopTypeServiceImpl.java:36-40 | a cached list is returned as it is, without the database or a write |
| ShopTypeService.TypeListMiss | src/main/java/com/hmdp/service/impl/ShopTypeServiceImpl.java:42-52 | a miss returns all rows sorted by `sort` and caches that list for 30 minutes |
| ShopTypeService.TypeListRoundTrip | src/main/java/com/hmdp/service/impl/ShopTypeServiceImpl.java:36-52 | within 30 minutes of a miss the next call returns the same list without the database, even if the table changed |
| VoucherOrderService.AdmissionMapping | src/main/java/com/hmdp/service/impl/VoucherOrderServiceImpl.java:211-219 | reply 0 is success, 2 is "repeated order", any other `int` is "out of stock", and a null or failed script is an exception |
| VoucherOrderService.AdmissionNarrows | src/main/java/com/hmdp/service/impl/VoucherOrderServiceImpl.java:216 | the narrowing keeps only the low 32 bits, so 2^32 reads as success |
| VoucherOrderService.OrderService.SeckillVoucher | src/main/java/com/hmdp/service/impl/VoucherOrderServiceImpl.java:194-234 | an order id is drawn by nextId("order") first; the answer is the admission result; the proxy is stored exactly when the answer is success |
| VoucherOrderService.CreateVoucherOrder | src/main/java/com/hmdp/service/impl/VoucherOrderServiceImpl.java:288-326 | the answer, stock and orders are those of `CreateOrder` |
| VoucherOrderService.CreateOrderCases | src/main/java/com/hmdp/service/impl/VoucherOrderServiceImpl.java:294-325 | a repeat order and an empty stock fail with their messages and change nothing; success iff neither, with a working database and a new order id; a success takes one unit of stock and adds exactly that order |
| VoucherOrderService.CreateOrderKeepsInvariants | src/main/java/com/hmdp/service/impl/VoucherOrderServiceImpl.java:294-324 | stock never goes negative, and no user holds two orders of one voucher |
| VoucherOrderService.HandleKeepsInvariants | src/main/java/com/hmdp/service/impl/VoucherOrderServiceImpl.java:166-181 | one handling, with or without a lock, a proxy or a connection, keeps stock non-negative and one order per user and voucher |
| VoucherOrderService.DrainKeepsInvariants | src/main/java/com/hmdp/service/impl/VoucherOrderServiceImpl.java:132-162 | a drain of the pending list, whatever its fault rounds, keeps the same invariant |
| VoucherOrderService.RunOnceKeepsInvariants | src/main/java/com/hmdp/service/impl/VoucherOrderServiceImpl.java:91-129 | every turn of the run loop keeps it, so it holds after any sequence of turns |
| VoucherOrderService.CreateOrderIdempotent | src/main/java/com/hmdp/service/impl/VoucherOrderServiceImpl.java:294-298 | handling the same order again fails and changes nothing |
| VoucherOrderService.OrderService.HandleVoucherOrder | src/main/java/com/hmdp/service/impl/VoucherOrderServiceImpl.java:166-181 | the new state and the normal return are those of `HandleSpec`: without a connection tryLock throws before anything is written; otherwise lock, create, release |
| VoucherOrderService.HandleReleasesLock | src/main/java/com/hmdp/service/impl/VoucherOrderServiceImpl.java:169-180 | a lock that was free is free afterwards, even when the order creation throws; with a connection only that key changes, without one tryLock throws and nothing changes; the stream is untouched |
| VoucherOrderService.HandleProceedsWithoutLock | src/main/java/com/hmdp/service/impl/VoucherOrderServiceImpl.java:170-179 | with another holder's lock in place and a working connection, the order is still created, the holder keeps its lock, and the call throws; without a connection tryLock throws and nothing changes |
| VoucherOrderService.OrderService.RunOnce | src/main/java/com/hmdp/service/impl/VoucherOrderServiceImpl.java:91-129 | one turn of the run loop ends in the state `RunOnceSpec` gives |
| VoucherOrderService.RunOnceIdle | src/main/java/com/hmdp/service/impl/VoucherOrderServiceImpl.java:104-106 | with no new entry, nothing changes |
| VoucherOrderService.RunOnceAcksHandled | src/main/java/com/hmdp/service/impl/VoucherOrderServiceImpl.java:109-114 | a new entry handled normally is acknowledged: the pending list is as before and the group moves past it |
| VoucherOrderService.RunOnceKeepsFailed | src/main/java/com/hmdp/service/impl/VoucherOrderServiceImpl.java:115-118 | an entry whose handling throws is left unacknowledged on the pending list when the turn's drain has no rounds |
| VoucherOrderService.OrderService.HandlePendingList | src/main/java/com/hmdp/service/impl/VoucherOrderServiceImpl.java:132-162 | the final state, and whether it stopped on an empty pending list, are those of `DrainSpec` |
| VoucherOrderService.DrainedMeansEmpty | src/main/java/com/hmdp/service/impl/VoucherOrderServiceImpl.java:142-145 | the drain stops on its own exactly when the pending list is empty |
| VoucherOrderService.DrainRound | src/main/java/com/hmdp/service/impl/VoucherOrderServiceImpl.java:146-159 | on a drainable state (entries in id order, each order id naming one order among them and in the table, no per-user lock held), a clean round acknowledges and removes the first entry, including one whose order was already committed, a faulty round keeps it, and the state stays drainable |
| VoucherOrderService.DrainCompletes | src/main/java/com/hmdp/service/impl/VoucherOrderServiceImpl.java:132-162 | with the proxy set, a working connection, a drainable state (entries in id order, each order id naming one order among them and in the table, so re-delivered committed orders are included, and no per-user lock held) and at least as many clean rounds as pending entries, the pending list is drained completely |
| VoucherOrderService.DrainRedelivered | src/main/java/com/hmdp/service/impl/VoucherOrderServiceImpl.java:132-162 | an entry whose order was committed but never acknowledged is drained by one clean round, with no second order and no change to the stock |
| VoucherOrderService.DrainStuckWithoutProxy | src/main/java/com/hmdp/service/impl/VoucherOrderServiceImpl.java:177 | while the proxy is unset, no number of rounds drains a non-empty pending list, and stock, orders and stream stay as they were |

## Left out

- Threads and executors are left out, as are `Thread.sleep`, the stream's blocking read, and the
  infinite loops. The asynchronous rebuild is its own method (`RebuildLogical`,
  `SaveShop2Redis`), and the query reports if it was submitted. The run loop is one turn per call.
- Concurrency is one parameter. Other clients' writes appear only as the `Race` value, at the
  double-check point between the lock attempt and the second read.
- The time is one `now` per call. The source reads the wall clock several times within a
  call, and the day string of `nextId` is a parameter.
- Lua scripts are outside the model. `order.lua` (stock check, order set, XADD) and `unlock.lua`
  are not part of this model. The admission reply is a parameter, and the lock's release
  follows the Java reference version of `unlock`.
- Redisson's `RLock` is modelled as the `SimpleRedisLock` on "lock:order:" + userId. It has the
  30 s default lease and throws when the caller does not hold the lock. On a lost
  connection its `tryLock` throws, which the model keeps. Its hash layout and the watchdog
  that renews the lease are left out.
- VoucherOrderService.OrderService.HandleVoucherOrder does not model Redisson's reentrancy.
  If this thread already holds the per-user lock, Redisson raises the hold count to 2 and
  the unlock brings it back to 1, so the lock stays held. The model's token lock instead
  reports a failed attempt and then deletes the key. For that reason
  VoucherOrderService.HandleReleasesLock is stated only for a free lock.
- JSON is abstract. A value decodes only to the document kind that was stored, and decoding
  any other value is an exception. hutool's lenient parsing of one kind as another is not
  modelled.
- Spring's transaction and AOP proxy are reduced: `createVoucherOrder` is atomic, and the proxy
  is a flag.
- Failures are modelled in a few places only. The null reply of `setIfAbsent` is
  `Backend.connected == false`. Database failure is modelled only in `createVoucherOrder`
  (the `dbFault` flag), and a duplicate order id throws there. Every other Redis and database
  call always answers.
- The blank test approximates hutool's `isBlankChar` with a fixed set of whitespace code points.
- `queryById` (ShopServiceImpl.java:53-85) is modelled only as the nested call that a lock
  loser makes inside `queryWithMutex`. Its `Result` wrapping is not modelled.
- The `null` branch of `queryTypeList` (ShopTypeServiceImpl.java:44-46) is not modelled,
  because `list()` never returns null.
- `BeanUtil.fillBeanWithMap` is left out: a stream entry carries the `VoucherOrder` itself.
- Shop columns are an abstract map. `updateById` writes the given columns into an existing
  row, and a missing row is left alone.
- CacheClient.Set needs a positive TTL. Redis rejects a non-positive TTL with an error, and
  that error path is not modelled (the callers pass positive constants). The same applies to
  SetWithLogicalExpire, QueryWithNullPassThrough and RebuildLogical.
- SimpleRedisLock.Lock.TryLock requires a positive `timeoutSec`, for the same reason. So do
  `Redis.Backend.Set` and `Redis.Backend.SetNx`.
- VoucherOrderService.OrderService.HandlePendingList is bounded by the rounds in `faults`. The
  source loops until the pending list is empty, forever if an entry keeps failing, so
  `drained == false` stands for "still looping".
- ShopService.LogicalIsCacheClient is stated only for cached RedisData that wraps a shop or
  null. For other data the shop version throws before the lock, and the generic one throws
  only when the value is used.
- Other parts of the service are not part of this model: login, blogs, follows, the
  interceptors, the controllers, and the voucher and user services.
