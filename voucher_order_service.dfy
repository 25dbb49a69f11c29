/** VoucherOrderServiceImpl: flash-sale admission by a Redis script, and asynchronous order
    creation by a consumer of the stream "stream.orders" (group g1, consumer c1). The consumer
    acknowledges an entry only after handling it, and drains its pending list after a
    failure. */
module VoucherOrderService {
  import opened JavaNumbers
  import opened Redis
  import opened RedisIdWorker
  import opened SimpleRedisLock

  // ---- admission ---------------------------------------------------------------------------

  /** The reply of the admission script: a `Long`, a null, or an exception. */
  datatype ScriptReply = Replied(code: int64) | NullReply | ScriptFailed

  /** The script's reply read through `result.intValue()`: 0 is admission, 2 a repeated order,
      anything else no stock; a failed script is rethrown and a null reply fails on the
      unboxing. */
  function AdmissionResult(reply: ScriptReply): Outcome<Response>
  {
    match reply
    case Replied(code) =>
      var r := ToInt(code);
      if r != 0 then Returned(Fail(if r == 2 then "不能重复下单" else "库存不足"))
      else Returned(Ok(None))
    case NullReply => Threw
    case ScriptFailed => Threw
  }

  lemma AdmissionMapping(reply: ScriptReply)
    ensures reply == Replied(0) ==> AdmissionResult(reply) == Returned(Ok(None))
    ensures reply == Replied(2) ==> AdmissionResult(reply) == Returned(Fail("不能重复下单"))
    ensures reply.Replied? && -TWO_31 <= reply.code < TWO_31 && reply.code != 0 && reply.code != 2 ==>
              AdmissionResult(reply) == Returned(Fail("库存不足"))
    ensures !reply.Replied? ==> AdmissionResult(reply) == Threw
  {
  }

  /** The narrowing to `int` keeps only the low 32 bits of the reply: 2^32 reads as 0 and
      2^32 + 2 as 2. */
  lemma AdmissionNarrows()
    ensures AdmissionResult(Replied(TWO_32)) == Returned(Ok(None))
    ensures AdmissionResult(Replied(TWO_32 + 2)) == Returned(Fail("不能重复下单"))
  {
  }

  // ---- createVoucherOrder ------------------------------------------------------------------

  /** Some order of that user for that voucher exists: the `count(...) > 0` test. */
  predicate HasOrdered(orders: map<int, VoucherOrder>, userId: int, voucherId: int)
  {
    exists id :: id in orders && orders[id].userId == userId && orders[id].voucherId == voucherId
  }

  datatype Created = Created(result: Outcome<Response>, stock: map<int, int>, orders: map<int, VoucherOrder>)

  /** createVoucherOrder as one transaction. `dbFault` is a failure of the database itself
      (lost connection, timeout). An insert under an order id that is taken raises a
      duplicate-key error, and the rollback undoes the stock decrement. */
  function CreateOrder(stock: map<int, int>, orders: map<int, VoucherOrder>, o: VoucherOrder, dbFault: bool): Created
  {
    if dbFault then Created(Threw, stock, orders)
    else if HasOrdered(orders, o.userId, o.voucherId) then Created(Returned(Fail("您已经购买过一次了")), stock, orders)
    else if !(o.voucherId in stock && stock[o.voucherId] > 0) then Created(Returned(Fail("抢购失败")), stock, orders)
    else if o.id in orders then Created(Threw, stock, orders)
    else Created(Returned(Ok(Some(o.id))), stock[o.voucherId := stock[o.voucherId] - 1], orders[o.id := o])
  }

  method CreateVoucherOrder(b: Backend, o: VoucherOrder, dbFault: bool) returns (r: Outcome<Response>)
    modifies b`stock, b`orders
    ensures Created(r, b.stock, b.orders) == CreateOrder(old(b.stock), old(b.orders), o, dbFault)
  {
    if dbFault {
      return Threw;
    }
    var userId, voucherId := o.userId, o.voucherId;
    if exists id :: id in b.orders && b.orders[id].userId == userId && b.orders[id].voucherId == voucherId {
      return Returned(Fail("您已经购买过一次了"));
    }
    var success := voucherId in b.stock && b.stock[voucherId] > 0;
    if !success {
      return Returned(Fail("抢购失败"));
    }
    if o.id in b.orders {
      return Threw;
    }
    b.stock := b.stock[voucherId := b.stock[voucherId] - 1];
    b.orders := b.orders[o.id := o];
    r := Returned(Ok(Some(o.id)));
  }

  /** At most one order per (user, voucher). */
  predicate OnePerUser(orders: map<int, VoucherOrder>)
  {
    forall i, j :: i in orders && j in orders && i != j ==>
      !(orders[i].userId == orders[j].userId && orders[i].voucherId == orders[j].voucherId)
  }

  predicate StockNonNegative(stock: map<int, int>)
  {
    forall v :: v in stock ==> stock[v] >= 0
  }

  /** The outcomes of createVoucherOrder. A repeated order and an empty stock fail and change
      nothing. A success takes exactly one unit of that voucher's stock, adds exactly the one
      order, and returns its id. */
  lemma CreateOrderCases(stock: map<int, int>, orders: map<int, VoucherOrder>, o: VoucherOrder, dbFault: bool)
    ensures var c := CreateOrder(stock, orders, o, dbFault);
      && (c.result != Returned(Ok(Some(o.id))) ==> c.stock == stock && c.orders == orders)
      && (!dbFault && HasOrdered(orders, o.userId, o.voucherId) ==> c.result == Returned(Fail("您已经购买过一次了")))
      && (!dbFault && !HasOrdered(orders, o.userId, o.voucherId) && (o.voucherId !in stock || stock[o.voucherId] <= 0) ==>
            c.result == Returned(Fail("抢购失败")))
      && (c.result == Returned(Ok(Some(o.id))) <==>
            !dbFault && !HasOrdered(orders, o.userId, o.voucherId) && o.voucherId in stock && stock[o.voucherId] > 0 && o.id !in orders)
      && (c.result == Returned(Ok(Some(o.id))) ==>
            && c.stock == stock[o.voucherId := stock[o.voucherId] - 1]
            && c.orders.Keys == orders.Keys + {o.id} && c.orders[o.id] == o
            && (forall id :: id in orders ==> c.orders[id] == orders[id]))
  {
  }

  /** Stock never goes negative and no user holds two orders of one voucher. */
  lemma CreateOrderKeepsInvariants(stock: map<int, int>, orders: map<int, VoucherOrder>, o: VoucherOrder, dbFault: bool)
    requires OnePerUser(orders) && StockNonNegative(stock)
    ensures var c := CreateOrder(stock, orders, o, dbFault);
      OnePerUser(c.orders) && StockNonNegative(c.stock)
  {
    var c := CreateOrder(stock, orders, o, dbFault);
    if c.result == Returned(Ok(Some(o.id))) {
      forall i, j | i in c.orders && j in c.orders && i != j
        ensures !(c.orders[i].userId == c.orders[j].userId && c.orders[i].voucherId == c.orders[j].voucherId)
      {
        if i == o.id {
          assert !(orders[j].userId == o.userId && orders[j].voucherId == o.voucherId);
        } else if j == o.id {
          assert !(orders[i].userId == o.userId && orders[i].voucherId == o.voucherId);
        }
      }
    }
  }

  /** Re-delivery: handling an order that was already created is a failure that changes
      nothing. */
  lemma CreateOrderIdempotent(stock: map<int, int>, orders: map<int, VoucherOrder>, o: VoucherOrder)
    requires CreateOrder(stock, orders, o, false).result.Returned?
    ensures var c1 := CreateOrder(stock, orders, o, false);
            var c2 := CreateOrder(c1.stock, c1.orders, o, false);
      c2.stock == c1.stock && c2.orders == c1.orders && c2.result.Returned? && c2.result.value.Fail?
  {
    var c1 := CreateOrder(stock, orders, o, false);
    if c1.result == Returned(Ok(Some(o.id))) {
      assert c1.orders[o.id] == o;
      assert HasOrdered(c1.orders, o.userId, o.voucherId);
    }
  }

  // ---- the consumer's state ----------------------------------------------------------------

  /** The parts of the stores the consumer reads and writes. */
  datatype State = State(cache: map<string, Entry>, stock: map<int, int>, orders: map<int, VoucherOrder>, stream: StreamLog)

  function StateOf(b: Backend): State
    reads b
  {
    State(b.cache, b.stock, b.orders, b.stream)
  }

  /** The Redisson lock's lease when no lease time is given, in seconds. */
  const ORDER_LOCK_TTL := 30

  /** The key of the per-user lock "lock:order:" + userId. */
  function OrderLockKey(userId: int): string
  {
    KEY_PREFIX + ("order:" + Decimal(userId))
  }

  datatype Handled = Handled(ok: bool, state: State)

  /** handleVoucherOrder(order) by thread `threadId` of the client whose lock tokens start with
      `lockPrefix`. Without a connection the lock's tryLock throws, before the `try` block, so
      nothing is written. A failed tryLock is only logged. createVoucherOrder throws at once
      when `proxy` has not been set yet. The unlock throws when this thread does not hold the
      lock. `ok` means the call returned normally. */
  function HandleSpec(s: State, lockPrefix: string, proxy: bool, order: VoucherOrder, threadId: int,
                      now: int, connected: bool, dbFault: bool): Handled
  {
    if !connected then Handled(false, s)
    else
    var key := OrderLockKey(order.userId);
    var token := lockPrefix + Decimal(threadId);
    var acquired := AcquireSpec(s.cache, key, token, ORDER_LOCK_TTL, now, connected);
    var created := if proxy then CreateOrder(s.stock, s.orders, order, dbFault) else Created(Threw, s.stock, s.orders);
    var held := Lookup(acquired.cache, key, now) == Some(Text(token));
    var released := ReleaseSpec(acquired.cache, key, token, now);
    Handled(created.result.Returned? && held, State(released, created.stock, created.orders, s.stream))
  }

  /** One turn of the run loop: read one new entry ('>'); none, go round again; handled, ACK it;
      an exception, drain the pending list in the rounds `faults` allows. */
  function RunOnceSpec(s: State, lockPrefix: string, proxy: bool, threadId: int, now: int, connected: bool,
                       fault: bool, faults: seq<bool>): State
  {
    match ReadNew(s.stream)
    case None => s
    case Some((e, log)) =>
      var h := HandleSpec(s.(stream := log), lockPrefix, proxy, e.order, threadId, now, connected, fault);
      if h.ok then h.state.(stream := Ack(h.state.stream, e.id))
      else DrainSpec(h.state, lockPrefix, proxy, threadId, now, connected, faults).state
  }

  datatype Drained = Drained(state: State, drained: bool)

  /** handlePendingList with one round per element of `faults` (whether the database fails in
      that round): read the first pending entry (offset 0); none, stop; otherwise handle it,
      ACK it if that returned normally, and go round again. `drained` means it stopped on an
      empty pending list rather than by running out of rounds. */
  function DrainSpec(s: State, lockPrefix: string, proxy: bool, threadId: int, now: int, connected: bool,
                     faults: seq<bool>): Drained
    decreases |faults|
  {
    match ReadPending(s.stream)
    case None => Drained(s, true)
    case Some(e) =>
      if faults == [] then Drained(s, false)
      else
        var h := HandleSpec(s, lockPrefix, proxy, e.order, threadId, now, connected, faults[0]);
        var next := if h.ok then h.state.(stream := Ack(h.state.stream, e.id)) else h.state;
        DrainSpec(next, lockPrefix, proxy, threadId, now, connected, faults[1..])
  }

  // ---- the service -------------------------------------------------------------------------

  class OrderService {
    const redis: Backend
    /** The lock client's id, which prefixes every lock token it writes. */
    const lockPrefix: string
    /** Whether seckillVoucher has stored the transactional proxy in the `proxy` field. */
    var proxy: bool

    constructor (redis: Backend, lockPrefix: string)
      ensures this.redis == redis && this.lockPrefix == lockPrefix && !proxy
    {
      this.redis, this.lockPrefix, proxy := redis, lockPrefix, false;
    }

    /** seckillVoucher(voucherId) for the logged-in user, at clock `nowSeconds` on day `day`,
        given the admission script's reply. The order id is drawn first. The script's own
        writes are not part of this model. */
    method SeckillVoucher(voucherId: int, userId: int, nowSeconds: int64, day: string, reply: ScriptReply)
      returns (r: Outcome<Response>)
      modifies redis`cache, this`proxy
      ensures var id := NextIdSpec(old(redis.cache), "order", nowSeconds, day);
        && redis.cache == id.cache
        && r == (if id.id.Threw? then Threw else AdmissionResult(reply))
        && proxy == (old(proxy) || r == Returned(Ok(None)))
    {
      var orderId := NextId(redis, "order", nowSeconds, day);
      if orderId.Threw? {
        return Threw;
      }
      if !reply.Replied? {
        return Threw;
      }
      var code := ToInt(reply.code);
      if code != 0 {
        return Returned(Fail(if code == 2 then "不能重复下单" else "库存不足"));
      }
      proxy := true;
      r := Returned(Ok(None));
    }

    method HandleVoucherOrder(order: VoucherOrder, threadId: int, now: int, dbFault: bool) returns (ok: bool)
      modifies redis`cache, redis`stock, redis`orders
      ensures Handled(ok, StateOf(redis)) == HandleSpec(old(StateOf(redis)), lockPrefix, proxy, order, threadId, now, redis.connected, dbFault)
    {
      if !redis.connected {
        return false;
      }
      var userId := order.userId;
      var lock := new Lock(redis, "order:" + Decimal(userId), lockPrefix);
      var success := lock.TryLock(ORDER_LOCK_TTL, threadId, now);
      var created: Outcome<Response>;
      if proxy {
        created := CreateVoucherOrder(redis, order, dbFault);
      } else {
        created := Threw;
      }
      var holder := redis.Get(lock.Key(), now);
      var held := holder == Some(Text(lock.Token(threadId)));
      lock.Unlock(threadId, now);
      ok := created.Returned? && held;
    }

    method HandlePendingList(threadId: int, now: int, faults: seq<bool>) returns (drained: bool)
      modifies redis`cache, redis`stock, redis`orders, redis`stream
      ensures Drained(StateOf(redis), drained) == DrainSpec(old(StateOf(redis)), lockPrefix, proxy, threadId, now, redis.connected, faults)
    {
      var i := 0;
      while i < |faults|
        invariant 0 <= i <= |faults|
        invariant DrainSpec(old(StateOf(redis)), lockPrefix, proxy, threadId, now, redis.connected, faults)
               == DrainSpec(StateOf(redis), lockPrefix, proxy, threadId, now, redis.connected, faults[i..])
        decreases |faults| - i
      {
        var e := redis.StreamReadPending();
        if e.None? {
          return true;
        }
        var ok := HandleVoucherOrder(e.value.order, threadId, now, faults[i]);
        if ok {
          redis.StreamAck(e.value.id);
        }
        assert faults[i..][1..] == faults[i + 1..];
        i := i + 1;
      }
      var e := redis.StreamReadPending();
      drained := e.None?;
    }

    /** One turn of VoucherOrderHandel.run. */
    method RunOnce(threadId: int, now: int, fault: bool, faults: seq<bool>)
      modifies redis`cache, redis`stock, redis`orders, redis`stream
      ensures StateOf(redis) == RunOnceSpec(old(StateOf(redis)), lockPrefix, proxy, threadId, now, redis.connected, fault, faults)
    {
      var e := redis.StreamReadNew();
      if e.None? {
        return;
      }
      var ok := HandleVoucherOrder(e.value.order, threadId, now, fault);
      if ok {
        redis.StreamAck(e.value.id);
        return;
      }
      var drained := HandlePendingList(threadId, now, faults);
    }
  }

  // ---- properties of the consumer ----------------------------------------------------------

  /** The per-user lock is released on every path, when the order creation throws too: a
      free lock key is free afterwards. With a connection the whole keyspace is as before
      apart from that key; without one tryLock throws and nothing changes. The stream is not
      touched. */
  lemma HandleReleasesLock(s: State, lockPrefix: string, proxy: bool, order: VoucherOrder, threadId: int,
                           now: int, connected: bool, dbFault: bool)
    requires Lookup(s.cache, OrderLockKey(order.userId), now).None?
    ensures var h := HandleSpec(s, lockPrefix, proxy, order, threadId, now, connected, dbFault);
      && Lookup(h.state.cache, OrderLockKey(order.userId), now).None?
      && (connected ==> h.state.cache == s.cache - {OrderLockKey(order.userId)})
      && (!connected ==> h.state == s && !h.ok)
      && h.state.stream == s.stream
  {
    if connected {
      var key := OrderLockKey(order.userId);
      var token := lockPrefix + Decimal(threadId);
      var acquired := AcquireSpec(s.cache, key, token, ORDER_LOCK_TTL, now, connected);
      assert acquired.cache - {key} == s.cache - {key};
    }
  }

  /** A failed tryLock does not stop the order: createVoucherOrder runs all the same, and then
      the unlock of a lock this thread does not hold throws, so the call does not return
      normally. The other holder's lock is left in place. Without a connection tryLock itself
      throws and nothing changes. */
  lemma HandleProceedsWithoutLock(s: State, lockPrefix: string, order: VoucherOrder, threadId: int,
                                  now: int, connected: bool, dbFault: bool, other: string)
    requires other != lockPrefix + Decimal(threadId)
    requires Lookup(s.cache, OrderLockKey(order.userId), now) == Some(Text(other))
    ensures var h := HandleSpec(s, lockPrefix, true, order, threadId, now, connected, dbFault);
            var c := CreateOrder(s.stock, s.orders, order, dbFault);
      && !h.ok
      && (connected ==> h.state == State(s.cache, c.stock, c.orders, s.stream))
      && (!connected ==> h.state == s)
  {
  }

  /** No new entry: nothing changes. */
  lemma RunOnceIdle(s: State, lockPrefix: string, proxy: bool, threadId: int, now: int, connected: bool,
                    fault: bool, faults: seq<bool>)
    requires s.stream.delivered >= |s.stream.entries|
    ensures RunOnceSpec(s, lockPrefix, proxy, threadId, now, connected, fault, faults) == s
  {
  }

  /** A stream whose pending entries are all older than the next undelivered one. */
  predicate PendingBeforeNext(log: StreamLog)
  {
    log.delivered < |log.entries| ==> forall i :: 0 <= i < |log.pending| ==> log.pending[i].id < log.entries[log.delivered].id
  }

  /** A new entry that is handled normally is acknowledged: the pending list is as before, the
      group has moved past the entry, and the order tables are as handling left them. */
  lemma RunOnceAcksHandled(s: State, lockPrefix: string, proxy: bool, threadId: int, now: int, connected: bool,
                           fault: bool, faults: seq<bool>)
    requires s.stream.delivered < |s.stream.entries| && PendingBeforeNext(s.stream)
    requires var e := s.stream.entries[s.stream.delivered];
      HandleSpec(s.(stream := ReadNew(s.stream).value.1), lockPrefix, proxy, e.order, threadId, now, connected, fault).ok
    ensures var e := s.stream.entries[s.stream.delivered];
            var h := HandleSpec(s, lockPrefix, proxy, e.order, threadId, now, connected, fault);
            var r := RunOnceSpec(s, lockPrefix, proxy, threadId, now, connected, fault, faults);
      && r.stream == s.stream.(delivered := s.stream.delivered + 1)
      && r.stock == h.state.stock && r.orders == h.state.orders
  {
    var e := s.stream.entries[s.stream.delivered];
    var log := ReadNew(s.stream).value.1;
    assert log.pending == s.stream.pending + [e];
    WithoutLast(s.stream.pending, e);
  }

  lemma {:induction false} WithoutLast(p: seq<StreamEntry>, e: StreamEntry)
    requires forall i :: 0 <= i < |p| ==> p[i].id < e.id
    ensures Without(p + [e], e.id) == p
  {
    if p == [] {
      assert [e][1..] == [];
    } else {
      assert (p + [e])[1..] == p[1..] + [e];
      WithoutLast(p[1..], e);
      assert [p[0]] + p[1..] == p;
    }
  }

  /** An entry whose handling throws is not acknowledged: with no rounds left for the drain, it
      stays on the pending list. */
  lemma RunOnceKeepsFailed(s: State, lockPrefix: string, proxy: bool, threadId: int, now: int, connected: bool,
                           fault: bool)
    requires s.stream.delivered < |s.stream.entries|
    requires var e := s.stream.entries[s.stream.delivered];
      !HandleSpec(s.(stream := ReadNew(s.stream).value.1), lockPrefix, proxy, e.order, threadId, now, connected, fault).ok
    ensures var e := s.stream.entries[s.stream.delivered];
      e in RunOnceSpec(s, lockPrefix, proxy, threadId, now, connected, fault, []).stream.pending
  {
    var e := s.stream.entries[s.stream.delivered];
    var log := ReadNew(s.stream).value.1;
    assert log.pending == s.stream.pending + [e];
    assert e in log.pending;
  }

  /** The drain stops on its own only when the pending list is empty. */
  lemma {:induction false} DrainedMeansEmpty(s: State, lockPrefix: string, proxy: bool, threadId: int, now: int,
                                             connected: bool, faults: seq<bool>)
    ensures var d := DrainSpec(s, lockPrefix, proxy, threadId, now, connected, faults);
      d.drained <==> d.state.stream.pending == []
    decreases |faults|
  {
    if s.stream.pending != [] && faults != [] {
      var e := s.stream.pending[0];
      var h := HandleSpec(s, lockPrefix, proxy, e.order, threadId, now, connected, faults[0]);
      var next := if h.ok then h.state.(stream := Ack(h.state.stream, e.id)) else h.state;
      DrainedMeansEmpty(next, lockPrefix, proxy, threadId, now, connected, faults[1..]);
    }
  }

  /** How many rounds of `faults` the database works in. */
  function Clean(faults: seq<bool>): nat
  {
    if faults == [] then 0 else (if faults[0] then 0 else 1) + Clean(faults[1..])
  }

  /** Among the pending entries an order id names one order. */
  predicate OrderIdsAgree(pending: seq<StreamEntry>)
  {
    forall i, j :: 0 <= i < j < |pending| && pending[i].order.id == pending[j].order.id ==>
      pending[i].order == pending[j].order
  }

  /** A pending entry whose order id is in the table carries that very order: it was
      re-delivered after its order was committed. */
  predicate OrdersMatch(pending: seq<StreamEntry>, orders: map<int, VoucherOrder>)
  {
    forall i :: 0 <= i < |pending| && pending[i].order.id in orders ==> orders[pending[i].order.id] == pending[i].order
  }

  /** No pending entry's per-user lock is held. */
  predicate LocksFree(pending: seq<StreamEntry>, cache: map<string, Entry>, now: int)
  {
    forall i :: 0 <= i < |pending| ==> Lookup(cache, OrderLockKey(pending[i].order.userId), now).None?
  }

  /** What the drain needs to make progress on every pending entry: the entries are in id
      order, an order id names one order among them and in the table, and no per-user lock
      is held. */
  predicate Drainable(s: State, now: int)
  {
    && Increasing(s.stream.pending)
    && OrderIdsAgree(s.stream.pending)
    && OrdersMatch(s.stream.pending, s.orders)
    && LocksFree(s.stream.pending, s.cache, now)
  }

  /** Handling an order while its user's lock is free, when its id is new or already names that
      very order: it returns normally exactly when the database works (a re-delivered order
      fails as a repeat, which is a normal return), releases the lock, and at most adds that
      one order. */
  lemma HandleKnownOrder(s: State, lockPrefix: string, order: VoucherOrder, threadId: int, now: int, fault: bool)
    requires Lookup(s.cache, OrderLockKey(order.userId), now).None?
    requires order.id in s.orders ==> s.orders[order.id] == order
    ensures var h := HandleSpec(s, lockPrefix, true, order, threadId, now, true, fault);
      && h.ok == !fault
      && h.state.cache == s.cache - {OrderLockKey(order.userId)}
      && h.state.stream == s.stream
      && (h.state.orders == s.orders || h.state.orders == s.orders[order.id := order])
  {
    HandleReleasesLock(s, lockPrefix, true, order, threadId, now, true, fault);
    CreateOrderCases(s.stock, s.orders, order, fault);
    if order.id in s.orders {
      assert s.orders[order.id].userId == order.userId && s.orders[order.id].voucherId == order.voucherId;
      assert HasOrdered(s.orders, order.userId, order.voucherId);
    }
  }

  lemma LookupRemoved(cache: map<string, Entry>, key: string, k: string, now: int)
    requires Lookup(cache, k, now).None?
    ensures Lookup(cache - {key}, k, now).None?
  {
  }

  lemma OrderIdsAgreeTail(pending: seq<StreamEntry>)
    requires pending != [] && OrderIdsAgree(pending)
    ensures OrderIdsAgree(pending[1..])
  {
    var p := pending[1..];
    forall i, j | 0 <= i < j < |p| && p[i].order.id == p[j].order.id
      ensures p[i].order == p[j].order
    {
      assert p[i] == pending[i + 1] && p[j] == pending[j + 1];
    }
  }

  /** Adding the first entry's order keeps the rest matching the table. */
  lemma OrdersMatchAfterInsert(pending: seq<StreamEntry>, orders: map<int, VoucherOrder>, next: seq<StreamEntry>)
    requires pending != [] && OrderIdsAgree(pending) && OrdersMatch(pending, orders)
    requires next == pending || next == pending[1..]
    ensures OrdersMatch(next, orders[pending[0].order.id := pending[0].order])
  {
    var o := pending[0].order;
    var d := if next == pending then 0 else 1;
    forall i | 0 <= i < |next| && next[i].order.id in orders[o.id := o]
      ensures orders[o.id := o][next[i].order.id] == next[i].order
    {
      assert next[i] == pending[i + d];
      if i + d > 0 && pending[i + d].order.id == o.id {
        assert pending[0].order.id == pending[i + d].order.id;
      }
    }
  }

  lemma OrdersMatchTail(pending: seq<StreamEntry>, orders: map<int, VoucherOrder>)
    requires pending != [] && OrdersMatch(pending, orders)
    ensures OrdersMatch(pending[1..], orders)
  {
    var p := pending[1..];
    forall i | 0 <= i < |p| && p[i].order.id in orders
      ensures orders[p[i].order.id] == p[i].order
    {
      assert p[i] == pending[i + 1];
    }
  }

  /** Releasing one lock keeps free locks free, for the whole list or its tail. */
  lemma LocksFreeAfterRelease(pending: seq<StreamEntry>, cache: map<string, Entry>, key: string, now: int,
                              next: seq<StreamEntry>)
    requires pending != [] && LocksFree(pending, cache, now)
    requires next == pending || next == pending[1..]
    ensures LocksFree(next, cache - {key}, now)
  {
    var d := if next == pending then 0 else 1;
    forall i | 0 <= i < |next|
      ensures Lookup(cache - {key}, OrderLockKey(next[i].order.userId), now).None?
    {
      assert next[i] == pending[i + d];
      LookupRemoved(cache, key, OrderLockKey(next[i].order.userId), now);
    }
  }

  /** A round that releases the first entry's lock, at most adds that entry's order, and
      keeps or drops the first pending entry leaves the state drainable. */
  lemma DrainableAfterRound(s: State, next: State, now: int)
    requires Drainable(s, now) && s.stream.pending != []
    requires var e := s.stream.pending[0];
      && next.cache == s.cache - {OrderLockKey(e.order.userId)}
      && (next.orders == s.orders || next.orders == s.orders[e.order.id := e.order])
    requires next.stream.pending == s.stream.pending || next.stream.pending == s.stream.pending[1..]
    requires Increasing(next.stream.pending)
    ensures Drainable(next, now)
  {
    var pending := s.stream.pending;
    var e := pending[0];
    if next.stream.pending != pending {
      OrderIdsAgreeTail(pending);
    }
    if next.orders == s.orders {
      if next.stream.pending != pending {
        OrdersMatchTail(pending, s.orders);
      }
    } else {
      OrdersMatchAfterInsert(pending, s.orders, next.stream.pending);
    }
    LocksFreeAfterRelease(pending, s.cache, OrderLockKey(e.order.userId), now, next.stream.pending);
  }

  /** One round on a drainable state: a clean round removes the first entry, a faulty one
      leaves the pending list as it was, and the state stays drainable. */
  lemma DrainRound(s: State, lockPrefix: string, threadId: int, now: int, fault: bool)
    requires Drainable(s, now) && s.stream.pending != []
    ensures var e := s.stream.pending[0];
            var h := HandleSpec(s, lockPrefix, true, e.order, threadId, now, true, fault);
            var next := if h.ok then h.state.(stream := Ack(h.state.stream, e.id)) else h.state;
      && h.ok == !fault
      && next.stream.pending == (if fault then s.stream.pending else s.stream.pending[1..])
      && Drainable(next, now)
  {
    var e := s.stream.pending[0];
    HandleKnownOrder(s, lockPrefix, e.order, threadId, now, fault);
    var h := HandleSpec(s, lockPrefix, true, e.order, threadId, now, true, fault);
    var next := if h.ok then h.state.(stream := Ack(h.state.stream, e.id)) else h.state;
    if h.ok {
      AckFirst(h.state.stream);
    }
    DrainableAfterRound(s, next, now);
  }

  /** With the proxy set and a working connection, a drainable pending list is drained
      completely, as long as the database works in at least as many rounds as there are
      pending entries. */
  lemma {:induction false} DrainCompletes(s: State, lockPrefix: string, threadId: int, now: int, faults: seq<bool>)
    requires Drainable(s, now)
    requires Clean(faults) >= |s.stream.pending|
    ensures var d := DrainSpec(s, lockPrefix, true, threadId, now, true, faults);
      d.drained && d.state.stream.pending == []
    decreases |faults|
  {
    if s.stream.pending != [] {
      var e := s.stream.pending[0];
      DrainRound(s, lockPrefix, threadId, now, faults[0]);
      var h := HandleSpec(s, lockPrefix, true, e.order, threadId, now, true, faults[0]);
      var next := if h.ok then h.state.(stream := Ack(h.state.stream, e.id)) else h.state;
      DrainCompletes(next, lockPrefix, threadId, now, faults[1..]);
    }
  }

  /** Until seckillVoucher has succeeded once in this process the `proxy` field is null, so
      every handling throws: the drain then never empties a non-empty pending list, however
      many rounds it is given, and keeps every entry. */
  lemma {:induction false} DrainStuckWithoutProxy(s: State, lockPrefix: string, threadId: int, now: int,
                                                  connected: bool, faults: seq<bool>)
    requires s.stream.pending != []
    ensures var d := DrainSpec(s, lockPrefix, false, threadId, now, connected, faults);
      !d.drained && d.state.stream == s.stream && d.state.orders == s.orders && d.state.stock == s.stock
    decreases |faults|
  {
    if faults != [] {
      var e := s.stream.pending[0];
      var h := HandleSpec(s, lockPrefix, false, e.order, threadId, now, connected, faults[0]);
      assert !h.ok && h.state.stream == s.stream;
      DrainStuckWithoutProxy(h.state, lockPrefix, threadId, now, connected, faults[1..]);
    }
  }

  /** Crash before the ACK: an entry whose order was committed but never acknowledged is
      drained by one clean round, without a second order and without touching the stock. */
  lemma DrainRedelivered(s: State, lockPrefix: string, threadId: int, now: int, e: StreamEntry)
    requires s.stream.pending == [e]
    requires e.order.id in s.orders && s.orders[e.order.id] == e.order
    requires Lookup(s.cache, OrderLockKey(e.order.userId), now).None?
    ensures var d := DrainSpec(s, lockPrefix, true, threadId, now, true, [false]);
      && d.drained && d.state.stream.pending == []
      && d.state.orders == s.orders && d.state.stock == s.stock
  {
    assert s.stream.pending[0] == e;
    HandleKnownOrder(s, lockPrefix, e.order, threadId, now, false);
    assert HasOrdered(s.orders, e.order.userId, e.order.voucherId);
    AckFirst(HandleSpec(s, lockPrefix, true, e.order, threadId, now, true, false).state.stream);
    assert [false][1..] == [];
  }

  /** The consumer's invariant over whole runs: one handling keeps non-negative stock and one
      order per user and voucher, since createVoucherOrder is the only writer of either table. */
  lemma HandleKeepsInvariants(s: State, lockPrefix: string, proxy: bool, order: VoucherOrder, threadId: int,
                              now: int, connected: bool, dbFault: bool)
    requires OnePerUser(s.orders) && StockNonNegative(s.stock)
    ensures var h := HandleSpec(s, lockPrefix, proxy, order, threadId, now, connected, dbFault);
      OnePerUser(h.state.orders) && StockNonNegative(h.state.stock)
  {
    if connected && proxy {
      CreateOrderKeepsInvariants(s.stock, s.orders, order, dbFault);
    }
  }

  /** Every drain of the pending list, whatever its fault rounds, keeps the invariant. */
  lemma {:induction false} DrainKeepsInvariants(s: State, lockPrefix: string, proxy: bool, threadId: int, now: int,
                                                connected: bool, faults: seq<bool>)
    requires OnePerUser(s.orders) && StockNonNegative(s.stock)
    ensures var d := DrainSpec(s, lockPrefix, proxy, threadId, now, connected, faults);
      OnePerUser(d.state.orders) && StockNonNegative(d.state.stock)
    decreases |faults|
  {
    match ReadPending(s.stream)
    case None =>
    case Some(e) =>
      if faults != [] {
        HandleKeepsInvariants(s, lockPrefix, proxy, e.order, threadId, now, connected, faults[0]);
        var h := HandleSpec(s, lockPrefix, proxy, e.order, threadId, now, connected, faults[0]);
        var next := if h.ok then h.state.(stream := Ack(h.state.stream, e.id)) else h.state;
        DrainKeepsInvariants(next, lockPrefix, proxy, threadId, now, connected, faults[1..]);
      }
  }

  /** Every turn of the run loop keeps the invariant, so it holds after any sequence of turns. */
  lemma RunOnceKeepsInvariants(s: State, lockPrefix: string, proxy: bool, threadId: int, now: int, connected: bool,
                               fault: bool, faults: seq<bool>)
    requires OnePerUser(s.orders) && StockNonNegative(s.stock)
    ensures var r := RunOnceSpec(s, lockPrefix, proxy, threadId, now, connected, fault, faults);
      OnePerUser(r.orders) && StockNonNegative(r.stock)
  {
    match ReadNew(s.stream)
    case None =>
    case Some((e, log)) =>
      var s1 := s.(stream := log);
      HandleKeepsInvariants(s1, lockPrefix, proxy, e.order, threadId, now, connected, fault);
      var h := HandleSpec(s1, lockPrefix, proxy, e.order, threadId, now, connected, fault);
      if !h.ok {
        DrainKeepsInvariants(h.state, lockPrefix, proxy, threadId, now, connected, faults);
      }
  }
}
