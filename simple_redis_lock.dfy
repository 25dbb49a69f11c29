/** SimpleRedisLock: a lock held by storing the holder's token under "lock:" + name with a TTL,
    released only by the holder (compare the stored token, then delete). */
module SimpleRedisLock {
  import opened Redis

  const KEY_PREFIX := "lock:"

  datatype Acquired = Acquired(ok: bool, cache: map<string, Entry>)

  /** tryLock: SET key token NX EX timeoutSec; only a TRUE reply is success, false and null
      are failure. */
  function AcquireSpec(cache: map<string, Entry>, key: string, token: string, timeoutSec: int,
                       now: int, connected: bool): Acquired
  {
    var r := SetIfAbsent(cache, key, Text(token), timeoutSec, now, connected);
    Acquired(r.reply == Some(true), r.cache)
  }

  /** unlock: delete the key only if it holds the caller's token. */
  function ReleaseSpec(cache: map<string, Entry>, key: string, token: string, now: int): map<string, Entry>
  {
    if Lookup(cache, key, now) == Some(Text(token)) then cache - {key} else cache
  }

  class Lock {
    const redis: Backend
    const name: string
    /** ID_PREFIX: a random UUID drawn once per process, followed by "-". */
    const idPrefix: string

    constructor (redis: Backend, name: string, idPrefix: string)
      ensures this.redis == redis && this.name == name && this.idPrefix == idPrefix
    {
      this.redis, this.name, this.idPrefix := redis, name, idPrefix;
    }

    function Key(): string { KEY_PREFIX + name }

    /** The holder token of a thread of this process. */
    function Token(threadId: int): string { idPrefix + Decimal(threadId) }

    method TryLock(timeoutSec: int, threadId: int, now: int) returns (ok: bool)
      requires timeoutSec > 0
      modifies redis`cache
      ensures Acquired(ok, redis.cache) == AcquireSpec(old(redis.cache), Key(), Token(threadId), timeoutSec, now, redis.connected)
    {
      var threadToken := idPrefix + Decimal(threadId);
      var success := redis.SetNx(KEY_PREFIX + name, Text(threadToken), timeoutSec, now);
      ok := success == Some(true);
    }

    method Unlock(threadId: int, now: int)
      modifies redis`cache
      ensures redis.cache == ReleaseSpec(old(redis.cache), Key(), Token(threadId), now)
    {
      var threadToken := idPrefix + Decimal(threadId);
      var id := redis.Get(KEY_PREFIX + name, now);
      if id == Some(Text(threadToken)) {
        redis.Delete(KEY_PREFIX + name);
      }
    }
  }

  /** tryLock succeeds exactly when the key is free and a reply came back; the key then holds
      the caller's token until timeoutSec seconds have passed. */
  lemma TryLockIffFree(cache: map<string, Entry>, key: string, token: string, timeoutSec: int,
                       now: int, connected: bool)
    requires timeoutSec > 0
    ensures var r := AcquireSpec(cache, key, token, timeoutSec, now, connected);
      && (r.ok <==> connected && Lookup(cache, key, now).None?)
      && (r.ok ==> r.cache == cache[key := Entry(Text(token), Some(now + timeoutSec))])
      && (forall t :: r.ok && now <= t < now + timeoutSec ==> Lookup(r.cache, key, t) == Some(Text(token)))
  {
  }

  /** tryLock on a held key fails and leaves the holder's token in place. */
  lemma TryLockHeldKeepsToken(cache: map<string, Entry>, key: string, token: string, timeoutSec: int,
                              now: int, connected: bool)
    requires Lookup(cache, key, now).Some?
    ensures var r := AcquireSpec(cache, key, token, timeoutSec, now, connected);
      !r.ok && r.cache == cache
  {
  }

  /** A null reply is failure, never success, and nothing was written. */
  lemma NullReplyIsFailure(cache: map<string, Entry>, key: string, token: string, timeoutSec: int, now: int)
    ensures var r := AcquireSpec(cache, key, token, timeoutSec, now, false);
      !r.ok && r.cache == cache
  {
  }

  /** unlock by the holder removes the key. */
  lemma UnlockByHolder(cache: map<string, Entry>, key: string, token: string, now: int)
    requires Lookup(cache, key, now) == Some(Text(token))
    ensures key !in ReleaseSpec(cache, key, token, now)
    ensures ReleaseSpec(cache, key, token, now) == cache - {key}
  {
  }

  /** unlock with any other token changes nothing. */
  lemma UnlockByOther(cache: map<string, Entry>, key: string, token: string, now: int)
    requires Lookup(cache, key, now) != Some(Text(token))
    ensures ReleaseSpec(cache, key, token, now) == cache
  {
  }

  /** tryLock then unlock by the same holder before the TTL runs out: the lock key is gone and
      every other key is as it was. */
  lemma LockThenUnlock(cache: map<string, Entry>, key: string, token: string, timeoutSec: int,
                       t1: int, t2: int, connected: bool)
    requires timeoutSec > 0 && t1 <= t2 < t1 + timeoutSec
    requires AcquireSpec(cache, key, token, timeoutSec, t1, connected).ok
    ensures var after := ReleaseSpec(AcquireSpec(cache, key, token, timeoutSec, t1, connected).cache, key, token, t2);
      after == cache - {key}
  {
    var held := AcquireSpec(cache, key, token, timeoutSec, t1, connected).cache;
    assert Lookup(held, key, t2) == Some(Text(token));
    assert held - {key} == cache - {key};
  }

  /** The expiry race: A's lock expires, B acquires the key, then A's late unlock arrives; B
      still holds the lock. */
  lemma LateUnlockIsHarmless(cache: map<string, Entry>, key: string, tokenA: string, tokenB: string,
                             ttl: int, tA: int, tB: int, tLate: int)
    requires ttl > 0 && tokenA != tokenB
    requires AcquireSpec(cache, key, tokenA, ttl, tA, true).ok
    requires tA + ttl <= tB <= tLate < tB + ttl
    ensures var c1 := AcquireSpec(cache, key, tokenA, ttl, tA, true).cache;
            var c2 := AcquireSpec(c1, key, tokenB, ttl, tB, true);
      && c2.ok
      && Lookup(ReleaseSpec(c2.cache, key, tokenA, tLate), key, tLate) == Some(Text(tokenB))
  {
  }
}
