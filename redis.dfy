/** The two stores the services sit on, as abstract state: the Redis key-value store (a map
    from key to value and optional expiry, a stream with one consumer group) and the relational
    tables (shops, shop types, seckill voucher stock, voucher orders). */
module Redis {
  import opened JavaNumbers

  datatype Option<T> = None | Some(value: T)

  /** How a Java call ends: it returns a value or throws. */
  datatype Outcome<T> = Returned(value: T) | Threw

  /** The `Result` DTO the services return: `Result.ok()`, `Result.ok(data)`, `Result.fail(msg)`. */
  datatype Response = Ok(data: Option<int>) | Fail(message: string)

  // ---- entities ----------------------------------------------------------------------------

  /** A row of tb_shop; `columns` holds its non-null columns other than the id. */
  datatype Shop = Shop(id: Option<int>, columns: map<string, string>)

  /** A row of tb_shop_type. */
  datatype ShopType = ShopType(id: int, name: string, sort: int)

  /** A row of tb_voucher_order, and the payload of an order message on the stream. */
  datatype VoucherOrder = VoucherOrder(id: int, userId: int, voucherId: int)

  /** The objects that are stored as JSON. */
  datatype Doc =
    | ShopDoc(shop: Shop)
    | ShopTypeListDoc(types: seq<ShopType>)
    | RedisDataDoc(redisData: RedisData)

  /** `RedisData{expireTime, data}`: a value with a logical expiry time (in seconds); `data`
      is null when the wrapped object was null. */
  datatype RedisData = RedisData(expireTime: int, data: Option<Doc>)

  /** A string value of the store: plain text (not a JSON document), a counter, or the JSON
      serialisation of a document (`JSONUtil.toJsonStr`, kept abstract). */
  datatype Value = Text(s: string) | Number(n: int) | Json(doc: Doc)

  /** A key's value and its absolute expiry time in seconds, if it has a TTL. */
  datatype Entry = Entry(value: Value, expireAt: Option<int>)

  /** `JSONUtil.toBean(json, RedisData.class)` followed by the use of its expiry time: only the
      serialisation of a RedisData gets through; anything else ends in an exception (a parse
      error, or a null expiry time). */
  function AsRedisData(v: Value): Option<RedisData>
  {
    if v.Json? && v.doc.RedisDataDoc? then Some(v.doc.redisData) else None
  }

  // ---- constants (RedisConstant) -----------------------------------------------------------

  const CACHE_SHOP_KEY := "cache:shop:"
  const CACHE_SHOP_TYPE_KEY := "cache:shop_type:"
  const LOCK_SHOP_KEY := "lock:shop:"
  /** Minutes. */
  const CACHE_SHOP_TTL := 30
  const CACHE_TTL := 30
  const CACHE_NULL_TTL := 2
  const LOCK_SHOP_TTL := 10

  /** `java.util.concurrent.TimeUnit`, for the units the callers use. */
  datatype TimeUnit = Seconds | Minutes | Hours | Days

  /** `unit.toSeconds(d)`. */
  function ToSeconds(unit: TimeUnit, d: int): int
  {
    match unit
    case Seconds => d
    case Minutes => d * 60
    case Hours => d * 3600
    case Days => d * 86400
  }

  // ---- strings -----------------------------------------------------------------------------

  function DigitChar(d: nat): char
    requires d < 10
  {
    "0123456789"[d]
  }

  function Digits(n: nat): (s: string)
    ensures |s| >= 1
    decreases n
  {
    if n < 10 then [DigitChar(n)] else Digits(n / 10) + [DigitChar(n % 10)]
  }

  /** `Long.toString(n)`, and so the string of an id appended to a key prefix. */
  function Decimal(n: int): string
  {
    if n < 0 then "-" + Digits(-n) else Digits(n)
  }

  /** hutool's `CharUtil.isBlankChar`: Java whitespace, Unicode space separators and a few
      invisible characters. */
  predicate IsBlankChar(c: char)
  {
    var u := c as int;
    || (0x09 <= u <= 0x0D) || (0x1C <= u <= 0x20) || u == 0x00A0 || u == 0x1680
    || (0x2000 <= u <= 0x200A) || u == 0x2028 || u == 0x2029 || u == 0x202F || u == 0x205F
    || u == 0x3000 || u == 0xFEFF || u == 0x202A || u == 0x0000 || u == 0x3164 || u == 0x2800
    || u == 0x180E
  }

  /** `StrUtil.isBlank` on the reply of a GET: null, or a string of blank characters only.
      A counter or a JSON document is never blank. */
  predicate IsBlank(v: Option<Value>)
  {
    match v
    case None => true
    case Some(Text(s)) => forall i :: 0 <= i < |s| ==> IsBlankChar(s[i])
    case Some(_) => false
  }

  /** Keys that start with different characters are different, whatever follows. */
  lemma DistinctPrefixes(p: string, q: string, s: string, t: string)
    requires |p| > 0 && |q| > 0 && p[0] != q[0]
    ensures p + s != q + t
  {
    assert (p + s)[0] == p[0];
    assert (q + t)[0] == q[0];
  }

  /** Two prefixes of one suffix give different keys. */
  lemma PrefixesDiffer(p: string, q: string, s: string)
    requires p != q
    ensures p + s != q + s
  {
    assert (p + s)[..|p|] == p && (q + s)[..|q|] == q;
  }

  // ---- the key space -----------------------------------------------------------------------

  predicate Alive(e: Entry, now: int)
  {
    e.expireAt.None? || now < e.expireAt.value
  }

  /** GET: the value of a key that exists and has not expired. */
  function Lookup(cache: map<string, Entry>, key: string, now: int): Option<Value>
  {
    if key in cache && Alive(cache[key], now) then Some(cache[key].value) else None
  }

  /** SET key value EX ttl. */
  function SetEx(cache: map<string, Entry>, key: string, v: Value, ttl: int, now: int): map<string, Entry>
  {
    cache[key := Entry(v, Some(now + ttl))]
  }

  datatype SetNxReply = SetNxReply(reply: Option<bool>, cache: map<string, Entry>)

  /** SET key value NX EX ttl. A null reply (`reply == None`) is what the client sees when it
      has no working connection; nothing is written then. */
  function SetIfAbsent(cache: map<string, Entry>, key: string, v: Value, ttl: int, now: int,
                       connected: bool): (r: SetNxReply)
    ensures r.reply == Some(true) <==> connected && Lookup(cache, key, now).None?
    ensures r.reply == Some(true) ==> Lookup(r.cache, key, now + ttl - 1) == Some(v)
    ensures r.reply == Some(true) ==> r.cache == cache[key := Entry(v, Some(now + ttl))]
    ensures r.reply != Some(true) ==> r.cache == cache
  {
    if !connected then SetNxReply(None, cache)
    else if Lookup(cache, key, now).None? then SetNxReply(Some(true), SetEx(cache, key, v, ttl, now))
    else SetNxReply(Some(false), cache)
  }

  datatype IncrReply = IncrReply(count: Option<int64>, cache: map<string, Entry>)

  /** INCR key: an absent key counts from 0; a counter keeps its TTL; a value that is not a
      counter, and an increment past the largest `long`, are errors (`count == None`) that
      change nothing. */
  function Incr(cache: map<string, Entry>, key: string, now: int): (r: IncrReply)
    ensures r.count.Some? ==> Lookup(r.cache, key, now) == Some(Number(r.count.value))
    ensures r.count.None? ==> r.cache == cache
    ensures forall k :: k != key ==> Lookup(r.cache, k, now) == Lookup(cache, k, now)
  {
    match Lookup(cache, key, now)
    case None => IncrReply(Some(1), cache[key := Entry(Number(1), None)])
    case Some(Number(n)) =>
      if -TWO_63 <= n < TWO_63 - 1 then IncrReply(Some(n + 1), cache[key := Entry(Number(n + 1), cache[key].expireAt)])
      else IncrReply(None, cache)
    case Some(_) => IncrReply(None, cache)
  }

  /** What another client did to a key while a query was between its lock attempt and its
      second read of the key (the "double check"). */
  datatype Race = Quiet | Wrote(entry: Entry) | Removed

  function ApplyRace(cache: map<string, Entry>, key: string, race: Race): map<string, Entry>
  {
    match race
    case Quiet => cache
    case Wrote(e) => cache[key := e]
    case Removed => cache - {key}
  }

  // ---- the stream "stream.orders" with consumer group g1 and its one consumer c1 ------------

  datatype StreamEntry = StreamEntry(id: nat, order: VoucherOrder)

  /** The stream's entries, how many of them the group has delivered ('>' reads the next one),
      and the consumer's pending list: delivered entries not yet acknowledged, in id order. */
  datatype StreamLog = StreamLog(entries: seq<StreamEntry>, delivered: nat, pending: seq<StreamEntry>)

  predicate Increasing(s: seq<StreamEntry>)
  {
    forall i, j :: 0 <= i < j < |s| ==> s[i].id < s[j].id
  }

  /** XREADGROUP ... COUNT 1 STREAMS stream.orders '>': the next undelivered entry, which moves
      onto the pending list. */
  function ReadNew(log: StreamLog): (r: Option<(StreamEntry, StreamLog)>)
    ensures r.Some? <==> log.delivered < |log.entries|
    ensures r.Some? ==> r.value.1 == log.(delivered := log.delivered + 1, pending := log.pending + [r.value.0])
  {
    if log.delivered < |log.entries| then
      var e := log.entries[log.delivered];
      Some((e, log.(delivered := log.delivered + 1, pending := log.pending + [e])))
    else None
  }

  /** XREADGROUP ... COUNT 1 STREAMS stream.orders 0: the first pending entry; nothing moves. */
  function ReadPending(log: StreamLog): Option<StreamEntry>
  {
    if log.pending == [] then None else Some(log.pending[0])
  }

  function Without(s: seq<StreamEntry>, id: nat): (r: seq<StreamEntry>)
    ensures forall e :: e in r <==> e in s && e.id != id
    ensures |r| <= |s|
  {
    if s == [] then []
    else if s[0].id == id then Without(s[1..], id)
    else [s[0]] + Without(s[1..], id)
  }

  /** XACK stream.orders g1 id. */
  function Ack(log: StreamLog, id: nat): StreamLog
  {
    log.(pending := Without(log.pending, id))
  }

  /** Acknowledging the first pending entry removes exactly that entry, since ids are unique. */
  lemma {:induction false} AckFirst(log: StreamLog)
    requires log.pending != [] && Increasing(log.pending)
    ensures Ack(log, log.pending[0].id).pending == log.pending[1..]
    ensures Increasing(log.pending[1..])
  {
    var p := log.pending;
    WithoutAbsent(p[1..], p[0].id);
  }

  lemma {:induction false} WithoutAbsent(s: seq<StreamEntry>, id: nat)
    requires forall i :: 0 <= i < |s| ==> s[i].id > id
    ensures Without(s, id) == s
  {
    if s != [] {
      WithoutAbsent(s[1..], id);
      assert [s[0]] + s[1..] == s;
    }
  }

  // ---- the stores --------------------------------------------------------------------------

  /** Redis and the database as one piece of shared state. */
  class Backend {
    var cache: map<string, Entry>
    /** False when the client's replies come back null; see `SetIfAbsent`. */
    var connected: bool
    var shops: map<int, Shop>
    var shopTypes: seq<ShopType>
    /** tb_seckill_voucher.stock by voucher id. */
    var stock: map<int, int>
    /** tb_voucher_order by order id. */
    var orders: map<int, VoucherOrder>
    var stream: StreamLog

    constructor ()
      ensures cache == map[] && connected && shops == map[] && shopTypes == []
      ensures stock == map[] && orders == map[] && stream == StreamLog([], 0, [])
    {
      cache, connected, shops, shopTypes := map[], true, map[], [];
      stock, orders, stream := map[], map[], StreamLog([], 0, []);
    }

    method Get(key: string, now: int) returns (v: Option<Value>)
      ensures v == Lookup(cache, key, now)
    {
      if key in cache && Alive(cache[key], now) {
        v := Some(cache[key].value);
      } else {
        v := None;
      }
    }

    /** SET with a TTL; Redis refuses a TTL that is not positive. */
    method Set(key: string, v: Value, ttl: int, now: int)
      requires ttl > 0
      modifies this`cache
      ensures cache == SetEx(old(cache), key, v, ttl, now)
    {
      cache := cache[key := Entry(v, Some(now + ttl))];
    }

    /** SET without a TTL, which also clears any TTL the key had. */
    method SetPersistent(key: string, v: Value)
      modifies this`cache
      ensures cache == old(cache)[key := Entry(v, None)]
    {
      cache := cache[key := Entry(v, None)];
    }

    method SetNx(key: string, v: Value, ttl: int, now: int) returns (reply: Option<bool>)
      requires ttl > 0
      modifies this`cache
      ensures SetNxReply(reply, cache) == SetIfAbsent(old(cache), key, v, ttl, now, connected)
    {
      if !connected {
        reply := None;
      } else {
        var cur := Get(key, now);
        if cur.None? {
          Set(key, v, ttl, now);
          reply := Some(true);
        } else {
          reply := Some(false);
        }
      }
    }

    /** Another client's write to `key`, interleaved into a query. */
    method Interleave(key: string, race: Race)
      modifies this`cache
      ensures cache == ApplyRace(old(cache), key, race)
    {
      match race {
        case Quiet =>
        case Wrote(e) => cache := cache[key := e];
        case Removed => cache := cache - {key};
      }
    }

    method Delete(key: string)
      modifies this`cache
      ensures cache == old(cache) - {key}
    {
      cache := cache - {key};
    }

    method Increment(key: string, now: int) returns (count: Option<int64>)
      modifies this`cache
      ensures IncrReply(count, cache) == Incr(old(cache), key, now)
    {
      var cur := Get(key, now);
      match cur {
        case None =>
          count := Some(1);
          cache := cache[key := Entry(Number(1), None)];
        case Some(Number(n)) =>
          if -TWO_63 <= n < TWO_63 - 1 {
            count := Some(n + 1);
            cache := cache[key := Entry(Number(n + 1), cache[key].expireAt)];
          } else {
            count := None;
          }
        case Some(_) =>
          count := None;
      }
    }

    method StreamReadNew() returns (e: Option<StreamEntry>)
      modifies this`stream
      ensures match ReadNew(old(stream))
              case None => e.None? && stream == old(stream)
              case Some(p) => e == Some(p.0) && stream == p.1
    {
      var r := ReadNew(stream);
      match r {
        case None => e := None;
        case Some(p) => e, stream := Some(p.0), p.1;
      }
    }

    method StreamReadPending() returns (e: Option<StreamEntry>)
      ensures e == ReadPending(stream)
    {
      e := if stream.pending == [] then None else Some(stream.pending[0]);
    }

    method StreamAck(id: nat)
      modifies this`stream
      ensures stream == Ack(old(stream), id)
    {
      stream := Ack(stream, id);
    }
  }
}
