/** RedisIdWorker: 64-bit ids made of a timestamp and a per-(prefix, day) counter. */
module RedisIdWorker {
  import opened JavaNumbers
  import opened Redis

  /** 2025-01-01T00:00:00 as seconds since the Unix epoch. */
  const BEGIN_TIMESTAMP := 1735689600

  /** The counter key "icr:" + key + ":" + the day formatted as yyyy:MM:dd. */
  function CounterKey(key: string, day: string): string
  {
    "icr:" + key + ":" + day
  }

  /** `timestamp << 32 | count` on Java `long`s. */
  function ComposeId(timestamp: int64, count: int64): int64
  {
    LongOr(ShiftLeft32(timestamp), count)
  }

  /** The two fields read back out of an id: `id >> 32` and `id & 0xFFFFFFFF`. */
  function TimestampOf(id: int64): int64 { ShiftRight32(id) }
  function CountOf(id: int64): int64 { LongAnd(id, 0xFFFF_FFFF) }

  /** With a timestamp of at most 31 bits and a count of at most 32 bits the id is
      timestamp * 2^32 + count: sign bit 0, timestamp in bits 62..32, count in bits 31..0. */
  lemma Layout(timestamp: int64, count: int64)
    requires 0 <= timestamp < TWO_31 && 0 <= count < TWO_32
    ensures ComposeId(timestamp, count) == timestamp * TWO_32 + count
    ensures ComposeId(timestamp, count) >= 0
  {
    Pow2Of32();
    assert timestamp * TWO_32 < TWO_63;
    assert ShiftLeft32(timestamp) == timestamp * TWO_32;
    OrDisjoint(timestamp, count, 32);
  }

  /** `>> 32` recovers the timestamp. */
  lemma ShiftBack(timestamp: int64, count: int64)
    requires 0 <= timestamp < TWO_31 && 0 <= count < TWO_32
    ensures TimestampOf(timestamp * TWO_32 + count) == timestamp
  {
    var id := timestamp * TWO_32 + count;
    assert timestamp * TWO_32 <= id < (timestamp + 1) * TWO_32;
  }

  /** `& 0xFFFFFFFF` recovers the count. */
  lemma MaskBack(timestamp: int64, count: int64)
    requires 0 <= timestamp < TWO_31 && 0 <= count < TWO_32
    ensures CountOf(timestamp * TWO_32 + count) == count
  {
    Pow2Of32();
    var id := timestamp * TWO_32 + count;
    assert 0 <= id < TWO_63;
    AndLowMask(timestamp, count, 32);
    assert Bits(0xFFFF_FFFF) == Pow2(32) - 1;
    assert Bits(id) == id;
  }

  /** The shift and the mask recover the timestamp and the count. */
  lemma RoundTrip(timestamp: int64, count: int64)
    requires 0 <= timestamp < TWO_31 && 0 <= count < TWO_32
    ensures TimestampOf(ComposeId(timestamp, count)) == timestamp
    ensures CountOf(ComposeId(timestamp, count)) == count
  {
    Layout(timestamp, count);
    ShiftBack(timestamp, count);
    MaskBack(timestamp, count);
  }

  /** Ids of in-range fields are ordered by timestamp first, then by count. */
  lemma Ordered(t1: int64, c1: int64, t2: int64, c2: int64)
    requires 0 <= t1 < TWO_31 && 0 <= c1 < TWO_32
    requires 0 <= t2 < TWO_31 && 0 <= c2 < TWO_32
    ensures ComposeId(t1, c1) < ComposeId(t2, c2) <==> t1 < t2 || (t1 == t2 && c1 < c2)
  {
    Layout(t1, c1);
    Layout(t2, c2);
    if t1 < t2 {
      assert t1 * TWO_32 + c1 < (t1 + 1) * TWO_32 <= t2 * TWO_32;
    } else if t2 < t1 {
      assert t2 * TWO_32 + c2 < (t2 + 1) * TWO_32 <= t1 * TWO_32;
    }
  }

  datatype IdReply = IdReply(id: Outcome<int64>, cache: map<string, Entry>)

  /** nextId(key) at clock `nowSeconds` (UTC seconds of the local wall clock) on day `day`:
      the INCR of the day's counter, and the id built from it; an INCR error is an exception. */
  function NextIdSpec(cache: map<string, Entry>, key: string, nowSeconds: int64, day: string): IdReply
  {
    var timestamp := ToLong(nowSeconds - BEGIN_TIMESTAMP);
    var r := Incr(cache, CounterKey(key, day), nowSeconds);
    match r.count
    case None => IdReply(Threw, r.cache)
    case Some(count) => IdReply(Returned(ComposeId(timestamp, count)), r.cache)
  }

  /** The counter of a day holds `n` (or is absent, n = 0) and carries no TTL. */
  predicate CounterAt(cache: map<string, Entry>, ck: string, now: int, n: nat)
  {
    && (ck in cache ==> cache[ck].expireAt.None?)
    && Lookup(cache, ck, now) == (if n == 0 then None else Some(Number(n)))
  }

  method NextId(b: Backend, key: string, nowSeconds: int64, day: string) returns (id: Outcome<int64>)
    modifies b`cache
    ensures IdReply(id, b.cache) == NextIdSpec(old(b.cache), key, nowSeconds, day)
  {
    var timestamp := ToLong(nowSeconds - BEGIN_TIMESTAMP);
    var count := b.Increment("icr:" + key + ":" + day, nowSeconds);
    if count.None? {
      id := Threw;
    } else {
      id := Returned(ComposeId(timestamp, count.value));
    }
  }

  /** The day's counter after one INCR holds n + 1, still carries no TTL, and every other
      key reads as before. */
  lemma CounterStep(cache: map<string, Entry>, ck: string, now: int, n: nat)
    requires CounterAt(cache, ck, now, n) && n < TWO_63 - 1
    ensures Incr(cache, ck, now).count == Some(n + 1)
    ensures CounterAt(Incr(cache, ck, now).cache, ck, now, n + 1)
    ensures forall k :: k != ck ==> Lookup(Incr(cache, ck, now).cache, k, now) == Lookup(cache, k, now)
  {
    if n == 0 {
      assert ck !in cache;
    } else {
      assert Lookup(cache, ck, now) == Some(Number(n));
    }
  }

  /** One call in its bare form: the id is built from the incremented counter. */
  lemma NextIdStep(cache: map<string, Entry>, key: string, nowSeconds: int64, day: string, n: nat)
    requires 0 <= nowSeconds - BEGIN_TIMESTAMP < TWO_31
    requires CounterAt(cache, CounterKey(key, day), nowSeconds, n) && n < TWO_32 - 1
    ensures var r := NextIdSpec(cache, key, nowSeconds, day);
      && r.id == Returned(ComposeId(nowSeconds - BEGIN_TIMESTAMP, n + 1))
      && r.id.value == (nowSeconds - BEGIN_TIMESTAMP) * TWO_32 + n + 1
      && r.cache == Incr(cache, CounterKey(key, day), nowSeconds).cache
      && CounterAt(r.cache, CounterKey(key, day), nowSeconds, n + 1)
  {
    var ts := nowSeconds - BEGIN_TIMESTAMP;
    CounterStep(cache, CounterKey(key, day), nowSeconds, n);
    Layout(ts, n + 1);
  }

  lemma IdFields(timestamp: int64, count: int64)
    requires 0 <= timestamp < TWO_31 && 0 <= count < TWO_32
    ensures ComposeId(timestamp, count) >= 0
    ensures TimestampOf(ComposeId(timestamp, count)) == timestamp
    ensures CountOf(ComposeId(timestamp, count)) == count
  {
    Layout(timestamp, count);
    RoundTrip(timestamp, count);
  }

  /** One call: the id's timestamp field is nowSeconds - BEGIN_TIMESTAMP, its count field is
      the day's counter plus one, that counter is incremented by exactly one and every other
      key reads as before. */
  lemma NextIdFields(cache: map<string, Entry>, key: string, nowSeconds: int64, day: string, n: nat)
    requires 0 <= nowSeconds - BEGIN_TIMESTAMP < TWO_31
    requires CounterAt(cache, CounterKey(key, day), nowSeconds, n) && n < TWO_32 - 1
    ensures var r := NextIdSpec(cache, key, nowSeconds, day);
      && r.id.Returned?
      && r.id.value == ComposeId(nowSeconds - BEGIN_TIMESTAMP, n + 1)
      && r.id.value >= 0
      && TimestampOf(r.id.value) == nowSeconds - BEGIN_TIMESTAMP
      && CountOf(r.id.value) == n + 1
      && Lookup(r.cache, CounterKey(key, day), nowSeconds) == Some(Number(n + 1))
      && CounterAt(r.cache, CounterKey(key, day), nowSeconds, n + 1)
      && (forall k :: k != CounterKey(key, day) ==> Lookup(r.cache, k, nowSeconds) == Lookup(cache, k, nowSeconds))
  {
    NextIdStep(cache, key, nowSeconds, day, n);
    CounterStep(cache, CounterKey(key, day), nowSeconds, n);
    IdFields(nowSeconds - BEGIN_TIMESTAMP, n + 1);
  }

  lemma CounterKeysDiffer(key: string, d1: string, d2: string)
    requires d1 != d2
    ensures CounterKey(key, d1) != CounterKey(key, d2)
  {
    var p := "icr:" + key + ":";
    assert CounterKey(key, d1) == p + d1 && CounterKey(key, d2) == p + d2;
    assert (p + d1)[|p|..] == d1 && (p + d2)[|p|..] == d2;
  }

  /** Two calls on one day: the second id is the larger. */
  lemma SameDayIds(cache: map<string, Entry>, key: string, t1: int64, t2: int64, day: string, n: nat)
    requires 0 <= t1 - BEGIN_TIMESTAMP && t1 <= t2 && t2 - BEGIN_TIMESTAMP < TWO_31
    requires CounterAt(cache, CounterKey(key, day), t1, n) && n < TWO_32 - 2
    ensures var r1 := NextIdSpec(cache, key, t1, day);
            var r2 := NextIdSpec(r1.cache, key, t2, day);
      r1.id.Returned? && r2.id.Returned? && r1.id.value < r2.id.value
  {
    var r1 := NextIdSpec(cache, key, t1, day);
    NextIdStep(cache, key, t1, day, n);
    SameDayCounter(cache, r1.cache, CounterKey(key, day), t1, t2, n);
    NextIdStep(r1.cache, key, t2, day, n + 1);
  }

  /** Two calls on different days, the second at a later clock: the second id is the larger. */
  lemma OtherDayIds(cache: map<string, Entry>, key: string,
                    t1: int64, d1: string, n1: nat, t2: int64, d2: string, n2: nat)
    requires 0 <= t1 - BEGIN_TIMESTAMP && t1 < t2 && t2 - BEGIN_TIMESTAMP < TWO_31 && d1 != d2
    requires CounterAt(cache, CounterKey(key, d1), t1, n1) && n1 < TWO_32 - 1
    requires CounterAt(cache, CounterKey(key, d2), t2, n2) && n2 < TWO_32 - 1
    ensures var r1 := NextIdSpec(cache, key, t1, d1);
            var r2 := NextIdSpec(r1.cache, key, t2, d2);
      r1.id.Returned? && r2.id.Returned? && r1.id.value < r2.id.value
  {
    var r1 := NextIdSpec(cache, key, t1, d1);
    NextIdStep(cache, key, t1, d1, n1);
    CounterKeysDiffer(key, d1, d2);
    OtherDayCounter(cache, r1.cache, CounterKey(key, d1), CounterKey(key, d2), t1, t2, n2);
    NextIdStep(r1.cache, key, t2, d2, n2);
    assert (t1 - BEGIN_TIMESTAMP) * TWO_32 + n1 + 1 < (t1 - BEGIN_TIMESTAMP + 1) * TWO_32 <= (t2 - BEGIN_TIMESTAMP) * TWO_32;
  }

  /** Two calls with the same key and a clock that does not go backwards give different ids,
      and the second id is the larger. The day is a function of the clock, so equal clocks
      mean the same day. */
  lemma TwoCallsUnique(cache: map<string, Entry>, key: string,
                       t1: int64, d1: string, n1: nat, t2: int64, d2: string, n2: nat)
    requires 0 <= t1 - BEGIN_TIMESTAMP && t1 <= t2 && t2 - BEGIN_TIMESTAMP < TWO_31
    requires t1 == t2 ==> d1 == d2
    requires CounterAt(cache, CounterKey(key, d1), t1, n1) && n1 < TWO_32 - 2
    requires d1 != d2 ==> CounterAt(cache, CounterKey(key, d2), t2, n2) && n2 < TWO_32 - 1
    ensures var r1 := NextIdSpec(cache, key, t1, d1);
            var r2 := NextIdSpec(r1.cache, key, t2, d2);
      && r1.id.Returned? && r2.id.Returned?
      && r1.id.value != r2.id.value
      && r1.id.value < r2.id.value
  {
    if d1 == d2 {
      SameDayIds(cache, key, t1, t2, d1, n1);
    } else {
      OtherDayIds(cache, key, t1, d1, n1, t2, d2, n2);
    }
  }

  /** What the first call left in the day's counter is still there later: it has no TTL. */
  lemma SameDayCounter(cache: map<string, Entry>, after: map<string, Entry>, ck: string,
                       t1: int, t2: int, n: nat)
    requires CounterAt(cache, ck, t1, n)
    requires after == Incr(cache, ck, t1).cache
    requires Lookup(after, ck, t1) == Some(Number(n + 1))
    ensures CounterAt(after, ck, t2, n + 1)
  {
  }

  /** The first call does not touch another day's counter. */
  lemma OtherDayCounter(cache: map<string, Entry>, after: map<string, Entry>, ck1: string, ck2: string,
                        t1: int, t2: int, n: nat)
    requires ck1 != ck2
    requires CounterAt(cache, ck2, t2, n)
    requires after == Incr(cache, ck1, t1).cache
    ensures CounterAt(after, ck2, t2, n)
  {
  }
}
