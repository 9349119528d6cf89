/**
 * The commit half of createSellOrder (server/methods/order/createSellOrder.js, lines 85-134):
 * the fast-fail test on the lock registry, the request for two keys, the locked
 * re-check and the single order it appends. The registry is reduced to the set of
 * keys currently held; the orders collection to a sequence.
 */
module SellOrderCommit {
  import opened Optional
  import opened SellOrderRules

  /** The per-company order key: the prefix companyOrder followed by the company id. */
  function CompanyOrderKey(companyId: string): string
  {
    "companyOrder" + companyId
  }

  /** The per-user key: the prefix user followed by the user id. */
  function UserKey(userId: string): string
  {
    "user" + userId
  }

  /** The keys whose being held makes the call fail before it queues (line 85). */
  function FastFailKeys(companyId: string, userId: string): set<string>
  {
    {"season", "allCompanyOrders", CompanyOrderKey(companyId), UserKey(userId)}
  }

  /** The keys the locked section holds (line 87). */
  function RequestKeys(companyId: string, userId: string): set<string>
  {
    {CompanyOrderKey(companyId), UserKey(userId)}
  }

  /**
   * The requested keys are two distinct keys, both among the fast-fail keys; the two
   * global keys are only tested, never held.
   */
  lemma RequestKeysShape(companyId: string, userId: string)
    ensures RequestKeys(companyId, userId) <= FastFailKeys(companyId, userId)
    ensures "season" !in RequestKeys(companyId, userId)
    ensures "allCompanyOrders" !in RequestKeys(companyId, userId)
    ensures |RequestKeys(companyId, userId)| == 2
  {
    assert CompanyOrderKey(companyId)[0] == 'c';
    assert UserKey(userId)[0] == 'u';
    assert "season"[0] == 's';
    assert "allCompanyOrders"[0] == 'a';
  }

  /** Different companies (users) lock different keys, and a company key never equals a user key. */
  lemma KeysAreInjective(c1: string, c2: string, u1: string, u2: string)
    ensures CompanyOrderKey(c1) == CompanyOrderKey(c2) ==> c1 == c2
    ensures UserKey(u1) == UserKey(u2) ==> u1 == u2
    ensures CompanyOrderKey(c1) != UserKey(u1)
  {
    if CompanyOrderKey(c1) == CompanyOrderKey(c2) {
      assert c1 == CompanyOrderKey(c1)[12..];
      assert c2 == CompanyOrderKey(c2)[12..];
    }
    if UserKey(u1) == UserKey(u2) {
      assert u1 == UserKey(u1)[4..];
      assert u2 == UserKey(u2)[4..];
    }
    assert CompanyOrderKey(c1)[0] != UserKey(u1)[0];
  }

  /** The record createOrder receives (lines 126-132). */
  function SellOrderFor(user: User, data: OrderData): Order
  {
    Order(user.id, data.companyId, Sell, data.unitPrice, data.amount)
  }

  /**
   * The record appended on acceptance is a sell order, so it never adds or hides an open
   * buy order: a committed sell never blocks a later sell of the same or any other user.
   */
  lemma CommittedSellIsNotABuyOrder(orders: seq<Order>, user: User, data: OrderData, companyId: string, userId: string)
    ensures OrderTypeName(SellOrderFor(user, data).orderType) == "賣出"
    ensures HasOpenBuyOrder(orders + [SellOrderFor(user, data)], companyId, userId)
            <==> HasOpenBuyOrder(orders, companyId, userId)
  {
    var all := orders + [SellOrderFor(user, data)];
    if HasOpenBuyOrder(all, companyId, userId) {
      var i :| 0 <= i < |all| && all[i].companyId == companyId && all[i].userId == userId && all[i].orderType == Buy;
      assert i < |orders| && orders[i] == all[i];
    }
    if HasOpenBuyOrder(orders, companyId, userId) {
      var i :| 0 <= i < |orders| && orders[i].companyId == companyId && orders[i].userId == userId
                 && orders[i].orderType == Buy;
      assert all[i] == orders[i];
    }
  }

  /** The stage-one chain followed by the fast-fail test (lines 29-85). */
  function Admission(user: User, data: OrderData, orders: seq<Order>, held: set<string>, market: Market): (r: Option<SellError>)
    ensures r.Some? && !r.value.ResourceBusy? ==> r == CheckSellOrder(user, data, orders, market)
    ensures CheckSellOrder(user, data, orders, market).Some? ==> r == CheckSellOrder(user, data, orders, market)
    ensures r == Some(ResourceBusy) <==> CheckSellOrder(user, data, orders, market).None? && FastFailKeys(data.companyId, user.id) * held != {}
    ensures r.None? <==> CheckSellOrder(user, data, orders, market).None? && FastFailKeys(data.companyId, user.id) * held == {}
  {
    var early := CheckSellOrder(user, data, orders, market);
    if early.Some? then early
    else if FastFailKeys(data.companyId, user.id) * held != {} then Some(ResourceBusy)
    else None
  }

  /**
   * The verdict of a whole call: admission on the orders and snapshot read before the
   * lock, then the locked chain on what is read under it: the orders with those other
   * requests wrote while this one waited (`arrivals`) appended, and a second snapshot.
   */
  function SellOutcome(user: User, data: OrderData, orders: seq<Order>, held: set<string>,
                       snapshot: Market, arrivals: seq<Order>, lockedSnapshot: Market): (r: Option<SellError>)
    ensures CheckSellOrder(user, data, orders, snapshot).Some? ==> r == CheckSellOrder(user, data, orders, snapshot)
    ensures (CheckSellOrder(user, data, orders, snapshot).None? && FastFailKeys(data.companyId, user.id) * held != {})
            ==> r == Some(ResourceBusy)
    ensures (CheckSellOrder(user, data, orders, snapshot).None? && FastFailKeys(data.companyId, user.id) * held == {})
            ==> r == RecheckSellOrder(user, data, orders + arrivals, lockedSnapshot)
    ensures r.None? <==> CheckSellOrder(user, data, orders, snapshot).None?
                         && FastFailKeys(data.companyId, user.id) * held == {}
                         && RecheckSellOrder(user, data, orders + arrivals, lockedSnapshot).None?
    ensures r == Some(ResourceBusy) ==> FastFailKeys(data.companyId, user.id) * held != {}
    ensures data.companyId !in lockedSnapshot.companies ==> r.Some?
  {
    var admitted := Admission(user, data, orders, held, snapshot);
    if admitted.Some? then admitted else RecheckSellOrder(user, data, orders + arrivals, lockedSnapshot)
  }

  /** When nothing changes while the request waits, the locked re-check never rejects what admission accepted. */
  lemma UnchangedSnapshotOutcome(user: User, data: OrderData, orders: seq<Order>, held: set<string>, market: Market)
    ensures SellOutcome(user, data, orders, held, market, [], market) == Admission(user, data, orders, held, market)
  {
    assert orders + [] == orders;
    if CheckSellOrder(user, data, orders, market).None? {
      RecheckIsWeaker(user, data, orders, market);
    }
  }

  /**
   * A buy order for the same (company, user) written while the request waited is seen by
   * the locked chain: the call is rejected, with BuyOrderExists once the holdings still pass.
   */
  lemma BuyOrderDuringWaitRejects(user: User, data: OrderData, orders: seq<Order>, held: set<string>,
                                  snapshot: Market, arrivals: seq<Order>, lockedSnapshot: Market, i: nat)
    requires Admission(user, data, orders, held, snapshot).None?
    requires i < |arrivals| && arrivals[i].orderType == Buy
    requires arrivals[i].companyId == data.companyId && arrivals[i].userId == user.id
    ensures SellOutcome(user, data, orders, held, snapshot, arrivals, lockedSnapshot).Some?
    ensures HasStocks(lockedSnapshot, data.companyId, user.id, data.amount)
            ==> SellOutcome(user, data, orders, held, snapshot, arrivals, lockedSnapshot) == Some(BuyOrderExists)
  {
    var all := orders + arrivals;
    assert all[|orders| + i] == arrivals[i];
    assert HasOpenBuyOrder(all, data.companyId, user.id);
  }

  /**
   * An accepted call met every stage-one rule on the first snapshot, found no fast-fail
   * key held, and met every locked rule on the second snapshot.
   */
  lemma AcceptedOutcome(user: User, data: OrderData, orders: seq<Order>, held: set<string>,
                        snapshot: Market, arrivals: seq<Order>, lockedSnapshot: Market)
    requires SellOutcome(user, data, orders, held, snapshot, arrivals, lockedSnapshot).None?
    ensures forall i | 0 <= i < |StageOneRules| :: Holds(StageOneRules[i], user, data, orders, snapshot)
    ensures forall k :: k in FastFailKeys(data.companyId, user.id) ==> k !in held
    ensures forall i | 0 <= i < |LockedRules| :: Holds(LockedRules[i], user, data, orders + arrivals, lockedSnapshot)
  {
    AcceptedMeetsEveryRule(user, data, orders, snapshot);
    RecheckSellOrderIsFirstViolation(user, data, orders + arrivals, lockedSnapshot);
    FirstViolationSpec(LockedRules, user, data, orders + arrivals, lockedSnapshot);
    forall k | k in FastFailKeys(data.companyId, user.id) ensures k !in held {
      assert k !in FastFailKeys(data.companyId, user.id) * held;
    }
  }

  /** While any fast-fail key is held, every call that passes the stage-one chain fails with ResourceBusy. */
  lemma BusyKeyRejects(user: User, data: OrderData, orders: seq<Order>, held: set<string>,
                       snapshot: Market, arrivals: seq<Order>, lockedSnapshot: Market, key: string)
    requires CheckSellOrder(user, data, orders, snapshot).None?
    requires key in held && key in FastFailKeys(data.companyId, user.id)
    ensures SellOutcome(user, data, orders, held, snapshot, arrivals, lockedSnapshot) == Some(ResourceBusy)
  {
    assert key in FastFailKeys(data.companyId, user.id) * held;
  }

  /** The lock registry and the orders collection, as far as createSellOrder touches them. */
  class Exchange {
    var held: set<string>
    var orders: seq<Order>

    constructor (initialOrders: seq<Order>)
      ensures held == {} && orders == initialOrders
    {
      held := {};
      orders := initialOrders;
    }

    /** throwErrorIsResourceIsLock: true when any of the keys is held. Changes nothing. */
    method IsLocked(keys: set<string>) returns (busy: bool)
      ensures busy <==> keys * held != {}
      ensures busy <==> exists k :: k in keys && k in held
    {
      busy := keys * held != {};
      if busy {
        var k :| k in keys * held;
        assert k in keys && k in held;
      } else {
        forall k | k in keys ensures k !in held {
          assert k !in keys * held;
        }
      }
    }

    /** request: the registry grants the keys together, once none of them is held. */
    method Request(keys: set<string>)
      requires keys !! held
      modifies this`held
      ensures held == old(held) + keys
    {
      held := held + keys;
    }

    /** release: the keys are free again. */
    method Release(keys: set<string>)
      requires keys <= held
      modifies this`held
      ensures held == old(held) - keys
    {
      held := held - keys;
    }

    /** createOrder: appends one record. */
    method CreateOrder(order: Order)
      modifies this`orders
      ensures orders == old(orders) + [order]
    {
      orders := orders + [order];
    }

    /** The orders other requests write while this one waits for its keys. */
    method AwaitKeys(arrivals: seq<Order>)
      modifies this`orders
      ensures orders == old(orders) + arrivals
    {
      orders := orders + arrivals;
    }

    /**
     * The callback given to request (lines 87-134): take the two keys, re-check on the
     * snapshot read under the lock, append the sell order if the re-check passes, and
     * release the keys on every path.
     */
    method CommitLocked(user: User, data: OrderData, lockedSnapshot: Market) returns (r: Option<SellError>)
      requires RequestKeys(data.companyId, user.id) !! held
      modifies this
      ensures held == old(held)
      ensures r == RecheckSellOrder(user, data, old(orders), lockedSnapshot)
      ensures orders == if r.None? then old(orders) + [SellOrderFor(user, data)] else old(orders)
    {
      var keys := RequestKeys(data.companyId, user.id);
      Request(keys);
      r := RecheckSellOrder(user, data, orders, lockedSnapshot);
      if r.None? {
        assert keys <= held;
        CreateOrder(SellOrderFor(user, data));
      }
      Release(keys);
    }

    /**
     * createSellOrder: the stage-one chain on one snapshot, the fast-fail test, the wait
     * for the keys, then the locked section on the orders and the snapshot read once the
     * keys are granted. A rejection adds no order of this call; acceptance appends exactly
     * one sell order after whatever others wrote during the wait.
     */
    method CreateSellOrder(user: User, data: OrderData, snapshot: Market, arrivals: seq<Order>, lockedSnapshot: Market)
      returns (r: Option<SellError>)
      modifies this
      ensures held == old(held)
      ensures r == SellOutcome(user, data, old(orders), old(held), snapshot, arrivals, lockedSnapshot)
      ensures Admission(user, data, old(orders), old(held), snapshot).Some? ==> orders == old(orders)
      ensures Admission(user, data, old(orders), old(held), snapshot).None? ==>
                orders == old(orders) + arrivals + (if r.None? then [SellOrderFor(user, data)] else [])
    {
      r := CheckSellOrder(user, data, orders, snapshot);
      if r.Some? {
        return;
      }
      var busy := IsLocked(FastFailKeys(data.companyId, user.id));
      if busy {
        r := Some(ResourceBusy);
        return;
      }
      AwaitKeys(arrivals);
      RequestKeysShape(data.companyId, user.id);
      r := CommitLocked(user, data, lockedSnapshot);
      if r.Some? {
        assert orders == old(orders) + arrivals + [];
      }
    }
  }

  /** Submitting a rejected request again, with nothing written in between, changes nothing and yields the same error. */
  method ResubmitRejected(exchange: Exchange, user: User, data: OrderData, snapshot: Market)
    returns (first: Option<SellError>, second: Option<SellError>)
    modifies exchange
    ensures first.Some? ==> second == first
    ensures first.Some? ==> exchange.orders == old(exchange.orders) && exchange.held == old(exchange.held)
  {
    first := exchange.CreateSellOrder(user, data, snapshot, [], snapshot);
    assert first.Some? ==> exchange.orders == old(exchange.orders) by {
      assert old(exchange.orders) + [] == old(exchange.orders);
    }
    second := exchange.CreateSellOrder(user, data, snapshot, [], snapshot);
  }
}
