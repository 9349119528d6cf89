/**
 * The admission rules of createSellOrder (server/methods/order/createSellOrder.js):
 * the guard chain run before any lock is taken, the shorter chain re-run under the
 * lock, and the price band around a company's listPrice. Each chain returns the
 * first rule that fails, or None when the order may proceed.
 */
module SellOrderRules {
  import opened Optional

  /** The two order types of the orders collection. */
  datatype OrderType = Buy | Sell

  /** The string the orders collection stores for each type. */
  function OrderTypeName(t: OrderType): string
  {
    match t
    case Buy => "購入"
    case Sell => "賣出"
  }

  datatype Order = Order(userId: string, companyId: string, orderType: OrderType, unitPrice: int, amount: int)

  /** The acting user: its id, profile.isInVacation and profile.ban. */
  datatype User = User(id: string, isInVacation: bool, ban: seq<string>)

  /** The request after the boundary's type checks: integer price and amount. */
  datatype OrderData = OrderData(companyId: string, unitPrice: int, amount: int)

  datatype Company = Company(companyName: string, listPrice: int, isSeal: bool)

  /** A director record is looked up by (companyId, userId). */
  datatype DirectorKey = DirectorKey(companyId: string, userId: string)

  /**
   * What the chains read besides the orders: director stock counts, the companies
   * collection and the lowPriceThreshold variable.
   */
  datatype Market = Market(directors: map<DirectorKey, int>, companies: map<string, Company>, lowPriceThreshold: int)

  /** One constructor per rule (a rule may throw from more than one site); ResourceBusy is the lock registry's fast-fail error. */
  datatype SellError =
    | InVacation
    | BannedFromDeal
    | UnitPriceBelowOne
    | AmountBelowOne
    | BuyOrderExists
    | NotEnoughStocks
    | CompanyNotFound
    | CompanySealed(companyName: string)
    | PriceBelowBand
    | PriceAboveLowPriceBand
    | PriceAboveBand
    | ResourceBusy

  /** The status code of a validation error: 404 for a missing company, 403 for every other rule. */
  function Status(e: SellError): int
    requires !e.ResourceBusy?
  {
    if e == CompanyNotFound then 404 else 403
  }

  // ---------------------------------------------------------------------------
  // The price band, in exact integer arithmetic.

  function Max(a: int, b: int): int { if a < b then b else a }

  /** floor(pct * x / 100); Dafny's division by a positive divisor rounds down. */
  function FloorPercent(pct: int, x: int): (q: int)
    ensures 100 * q <= pct * x < 100 * q + 100
  {
    (pct * x) / 100
  }

  /** ceil(pct * x / 100). */
  function CeilPercent(pct: int, x: int): (q: int)
    ensures 100 * q - 100 < pct * x <= 100 * q
  {
    -((-(pct * x)) / 100)
  }

  /** The lowest admitted price: 85% of listPrice rounded down, and never below 1. */
  function LowerBound(listPrice: int): (b: int)
    ensures b >= 1
    ensures b > 1 ==> 100 * b <= 85 * listPrice < 100 * b + 100
    ensures b == 1 ==> 85 * listPrice < 200
  {
    Max(FloorPercent(85, listPrice), 1)
  }

  /** The highest admitted price: 130% of listPrice rounded up below the threshold, else 115% rounded up and at least 1. */
  function UpperBound(listPrice: int, lowPriceThreshold: int): (b: int)
    ensures listPrice < lowPriceThreshold ==> 100 * b - 100 < 130 * listPrice <= 100 * b
    ensures listPrice >= lowPriceThreshold ==> b >= 1
    ensures listPrice >= lowPriceThreshold && b > 1 ==> 100 * b - 100 < 115 * listPrice <= 100 * b
    ensures listPrice >= lowPriceThreshold && b == 1 ==> 115 * listPrice <= 100
  {
    if listPrice < lowPriceThreshold then CeilPercent(130, listPrice)
    else Max(CeilPercent(115, listPrice), 1)
  }

  /** The band guards in the source's order; the regime decides which above-band error is raised. */
  function BandCheck(unitPrice: int, listPrice: int, lowPriceThreshold: int): (r: Option<SellError>)
    ensures r.None? <==> LowerBound(listPrice) <= unitPrice <= UpperBound(listPrice, lowPriceThreshold)
    ensures r.Some? ==> r.value in {PriceBelowBand, PriceAboveLowPriceBand, PriceAboveBand}
  {
    if unitPrice < LowerBound(listPrice) then Some(PriceBelowBand)
    else if unitPrice > UpperBound(listPrice, lowPriceThreshold) then
      Some(if listPrice < lowPriceThreshold then PriceAboveLowPriceBand else PriceAboveBand)
    else None
  }

  /** The lower band as a statement about exact rationals: unitPrice + 1 > 0.85 * listPrice. */
  ghost predicate WithinLowerBandExact(unitPrice: int, listPrice: int)
  {
    unitPrice >= 1 && 100 * (unitPrice + 1) > 85 * listPrice
  }

  /** The upper band as a statement about exact rationals: unitPrice - 1 < 1.3 or 1.15 times listPrice. */
  ghost predicate WithinUpperBandExact(unitPrice: int, listPrice: int, lowPriceThreshold: int)
  {
    if listPrice < lowPriceThreshold then 100 * (unitPrice - 1) < 130 * listPrice
    else unitPrice <= 1 || 100 * (unitPrice - 1) < 115 * listPrice
  }

  lemma LowerBoundExact(unitPrice: int, listPrice: int)
    ensures unitPrice >= LowerBound(listPrice) <==> WithinLowerBandExact(unitPrice, listPrice)
  {
    var q := FloorPercent(85, listPrice);
    if unitPrice >= q {
      assert 100 * (unitPrice + 1) >= 100 * q + 100;
    } else {
      assert 100 * (unitPrice + 1) <= 100 * q;
    }
  }

  lemma UpperBoundExact(unitPrice: int, listPrice: int, lowPriceThreshold: int)
    ensures unitPrice <= UpperBound(listPrice, lowPriceThreshold)
            <==> WithinUpperBandExact(unitPrice, listPrice, lowPriceThreshold)
  {
    var lo := CeilPercent(130, listPrice);
    var hi := CeilPercent(115, listPrice);
    if unitPrice <= lo {
      assert 100 * (unitPrice - 1) <= 100 * lo - 100;
    } else {
      assert 100 * (unitPrice - 1) >= 100 * lo;
    }
    if unitPrice <= hi {
      assert 100 * (unitPrice - 1) <= 100 * hi - 100;
    } else {
      assert 100 * (unitPrice - 1) >= 100 * hi;
    }
  }

  /** The band admits a price exactly when both exact-rational bounds hold, and names the bound that fails. */
  lemma BandCheckExact(unitPrice: int, listPrice: int, lowPriceThreshold: int)
    ensures BandCheck(unitPrice, listPrice, lowPriceThreshold).None?
            <==> WithinLowerBandExact(unitPrice, listPrice)
                 && WithinUpperBandExact(unitPrice, listPrice, lowPriceThreshold)
    ensures BandCheck(unitPrice, listPrice, lowPriceThreshold) == Some(PriceBelowBand)
            <==> !WithinLowerBandExact(unitPrice, listPrice)
    ensures BandCheck(unitPrice, listPrice, lowPriceThreshold) == Some(PriceAboveLowPriceBand)
            <==> WithinLowerBandExact(unitPrice, listPrice) && listPrice < lowPriceThreshold
                 && !WithinUpperBandExact(unitPrice, listPrice, lowPriceThreshold)
    ensures BandCheck(unitPrice, listPrice, lowPriceThreshold) == Some(PriceAboveBand)
            <==> WithinLowerBandExact(unitPrice, listPrice) && listPrice >= lowPriceThreshold
                 && !WithinUpperBandExact(unitPrice, listPrice, lowPriceThreshold)
  {
    LowerBoundExact(unitPrice, listPrice);
    UpperBoundExact(unitPrice, listPrice, lowPriceThreshold);
  }

  /** List price 100 in the normal regime admits 85 through 115; list price 40 below threshold 50 admits up to 52. */
  lemma BandBoundaryCases()
    ensures LowerBound(100) == 85 && UpperBound(100, 50) == 115
    ensures BandCheck(85, 100, 50) == None && BandCheck(115, 100, 50) == None
    ensures BandCheck(84, 100, 50) == Some(PriceBelowBand)
    ensures BandCheck(116, 100, 50) == Some(PriceAboveBand)
    ensures UpperBound(40, 50) == 52
    ensures BandCheck(52, 40, 50) == None
    ensures BandCheck(53, 40, 50) == Some(PriceAboveLowPriceBand)
  {
  }

  /**
   * In the low-price regime the upper bound has no floor of 1, so a listPrice of 0 or
   * less rejects every price that passed the unitPrice >= 1 guard.
   */
  lemma NonPositiveLowRegimeRejectsAll(unitPrice: int, listPrice: int, lowPriceThreshold: int)
    requires listPrice <= 0 && listPrice < lowPriceThreshold && unitPrice >= 1
    ensures BandCheck(unitPrice, listPrice, lowPriceThreshold).Some?
  {
    BandCheckExact(unitPrice, listPrice, lowPriceThreshold);
  }

  // ---------------------------------------------------------------------------
  // The two guard chains, as the source writes them.

  /** Some order of the collection is a buy order of this user for this company. */
  predicate HasOpenBuyOrder(orders: seq<Order>, companyId: string, userId: string)
  {
    exists i | 0 <= i < |orders| ::
      orders[i].companyId == companyId && orders[i].userId == userId && orders[i].orderType == Buy
  }

  /** A director record exists and its stocks cover the amount. */
  predicate HasStocks(market: Market, companyId: string, userId: string, amount: int)
  {
    var key := DirectorKey(companyId, userId);
    key in market.directors && market.directors[key] >= amount
  }

  /** The chain run before any lock is taken (source lines 29-84). */
  function CheckSellOrder(user: User, data: OrderData, orders: seq<Order>, market: Market): (r: Option<SellError>)
    ensures r.Some? ==> !r.value.ResourceBusy?
    ensures data.companyId !in market.companies || HasOpenBuyOrder(orders, data.companyId, user.id) ==> r.Some?
    ensures r.None? ==> data.unitPrice >= 1 && data.amount >= 1 && HasStocks(market, data.companyId, user.id, data.amount)
  {
    if user.isInVacation then Some(InVacation)
    else if "deal" in user.ban then Some(BannedFromDeal)
    else if data.unitPrice < 1 then Some(UnitPriceBelowOne)
    else if data.amount < 1 then Some(AmountBelowOne)
    else if HasOpenBuyOrder(orders, data.companyId, user.id) then Some(BuyOrderExists)
    else if !HasStocks(market, data.companyId, user.id, data.amount) then Some(NotEnoughStocks)
    else if data.companyId !in market.companies then Some(CompanyNotFound)
    else
      var company := market.companies[data.companyId];
      if company.isSeal then Some(CompanySealed(company.companyName))
      else BandCheck(data.unitPrice, company.listPrice, market.lowPriceThreshold)
  }

  /**
   * The chain re-run under the lock (source lines 88-125): holdings first, then the
   * buy order, then the company and the band; no vacation, ban, price, amount or seal guard.
   */
  function RecheckSellOrder(user: User, data: OrderData, orders: seq<Order>, market: Market): (r: Option<SellError>)
    ensures r.Some? ==> !r.value.ResourceBusy?
    ensures data.companyId !in market.companies || HasOpenBuyOrder(orders, data.companyId, user.id) ==> r.Some?
    ensures r.None? ==> HasStocks(market, data.companyId, user.id, data.amount)
  {
    if !HasStocks(market, data.companyId, user.id, data.amount) then Some(NotEnoughStocks)
    else if HasOpenBuyOrder(orders, data.companyId, user.id) then Some(BuyOrderExists)
    else if data.companyId !in market.companies then Some(CompanyNotFound)
    else
      var company := market.companies[data.companyId];
      BandCheck(data.unitPrice, company.listPrice, market.lowPriceThreshold)
  }

  // ---------------------------------------------------------------------------
  // A reference description: a table of rules, each stated on its own, and the
  // first one that fails.

  datatype Rule =
    | NotOnVacation
    | NotBanned
    | PriceAtLeastOne
    | AmountAtLeastOne
    | NoOpenBuyOrder
    | EnoughStocks
    | CompanyListed
    | CompanyNotSealed
    | WithinLowerBand
    | WithinUpperBand

  const StageOneRules: seq<Rule> :=
    [NotOnVacation, NotBanned, PriceAtLeastOne, AmountAtLeastOne, NoOpenBuyOrder,
     EnoughStocks, CompanyListed, CompanyNotSealed, WithinLowerBand, WithinUpperBand]

  const LockedRules: seq<Rule> :=
    [EnoughStocks, NoOpenBuyOrder, CompanyListed, WithinLowerBand, WithinUpperBand]

  /** Whether one rule holds; the band rules use the exact-rational bounds. */
  ghost predicate Holds(rule: Rule, user: User, data: OrderData, orders: seq<Order>, market: Market)
  {
    match rule
    case NotOnVacation => !user.isInVacation
    case NotBanned => forall b :: b in user.ban ==> b != "deal"
    case PriceAtLeastOne => data.unitPrice >= 1
    case AmountAtLeastOne => data.amount >= 1
    case NoOpenBuyOrder =>
      forall o :: o in orders ==> !(o.orderType == Buy && o.companyId == data.companyId && o.userId == user.id)
    case EnoughStocks =>
      DirectorKey(data.companyId, user.id) in market.directors
      && data.amount <= market.directors[DirectorKey(data.companyId, user.id)]
    case CompanyListed => data.companyId in market.companies
    case CompanyNotSealed =>
      data.companyId in market.companies ==> !market.companies[data.companyId].isSeal
    case WithinLowerBand =>
      data.companyId in market.companies ==>
        WithinLowerBandExact(data.unitPrice, market.companies[data.companyId].listPrice)
    case WithinUpperBand =>
      data.companyId in market.companies ==>
        WithinUpperBandExact(data.unitPrice, market.companies[data.companyId].listPrice, market.lowPriceThreshold)
  }

  /** The error raised when a rule fails. */
  function Violation(rule: Rule, data: OrderData, market: Market): SellError
  {
    match rule
    case NotOnVacation => InVacation
    case NotBanned => BannedFromDeal
    case PriceAtLeastOne => UnitPriceBelowOne
    case AmountAtLeastOne => AmountBelowOne
    case NoOpenBuyOrder => BuyOrderExists
    case EnoughStocks => NotEnoughStocks
    case CompanyListed => CompanyNotFound
    case CompanyNotSealed =>
      CompanySealed(if data.companyId in market.companies then market.companies[data.companyId].companyName else "")
    case WithinLowerBand => PriceBelowBand
    case WithinUpperBand =>
      if data.companyId in market.companies && market.companies[data.companyId].listPrice < market.lowPriceThreshold
      then PriceAboveLowPriceBand else PriceAboveBand
  }

  /** The error of the first rule in the list that fails, or None. */
  ghost function FirstViolation(rules: seq<Rule>, user: User, data: OrderData, orders: seq<Order>, market: Market): Option<SellError>
  {
    if rules == [] then None
    else if !Holds(rules[0], user, data, orders, market) then Some(Violation(rules[0], data, market))
    else FirstViolation(rules[1..], user, data, orders, market)
  }

  /** FirstViolation is None exactly when every rule holds, and otherwise names the earliest failing rule. */
  lemma {:induction false} FirstViolationSpec(rules: seq<Rule>, user: User, data: OrderData, orders: seq<Order>, market: Market)
    ensures FirstViolation(rules, user, data, orders, market).None?
            <==> forall i | 0 <= i < |rules| :: Holds(rules[i], user, data, orders, market)
    ensures FirstViolation(rules, user, data, orders, market).Some? ==>
              exists k | 0 <= k < |rules| ::
                !Holds(rules[k], user, data, orders, market)
                && (forall j | 0 <= j < k :: Holds(rules[j], user, data, orders, market))
                && FirstViolation(rules, user, data, orders, market) == Some(Violation(rules[k], data, market))
  {
    if rules != [] {
      FirstViolationSpec(rules[1..], user, data, orders, market);
      if Holds(rules[0], user, data, orders, market) {
        forall i | 0 < i < |rules|
          ensures rules[i] == rules[1..][i - 1]
        {
        }
        if FirstViolation(rules[1..], user, data, orders, market).Some? {
          var k :| 0 <= k < |rules[1..]|
                   && !Holds(rules[1..][k], user, data, orders, market)
                   && (forall j | 0 <= j < k :: Holds(rules[1..][j], user, data, orders, market))
                   && FirstViolation(rules[1..], user, data, orders, market) == Some(Violation(rules[1..][k], data, market));
          assert forall j | 0 <= j < k + 1 :: Holds(rules[j], user, data, orders, market) by {
            forall j | 0 <= j < k + 1 ensures Holds(rules[j], user, data, orders, market) {
              if j > 0 { assert rules[j] == rules[1..][j - 1]; }
            }
          }
        }
      } else {
        assert !Holds(rules[0], user, data, orders, market);
      }
    }
  }

  lemma HasOpenBuyOrderExact(orders: seq<Order>, user: User, data: OrderData, market: Market)
    ensures HasOpenBuyOrder(orders, data.companyId, user.id) <==> !Holds(NoOpenBuyOrder, user, data, orders, market)
  {
    if !Holds(NoOpenBuyOrder, user, data, orders, market) {
      var o :| o in orders && o.orderType == Buy && o.companyId == data.companyId && o.userId == user.id;
      var i :| 0 <= i < |orders| && orders[i] == o;
    }
  }

  /** One step of FirstViolation on the suffix of a list from index i. */
  lemma FirstViolationStep(rules: seq<Rule>, i: nat, user: User, data: OrderData, orders: seq<Order>, market: Market)
    requires i < |rules|
    ensures FirstViolation(rules[i..], user, data, orders, market)
            == if !Holds(rules[i], user, data, orders, market) then Some(Violation(rules[i], data, market))
               else FirstViolation(rules[i + 1..], user, data, orders, market)
  {
    assert rules[i..][1..] == rules[i + 1..];
  }

  /** FirstViolation over a list of five rules, unrolled. */
  lemma FirstViolationOfFive(rules: seq<Rule>, user: User, data: OrderData, orders: seq<Order>, market: Market)
    requires |rules| == 5
    ensures FirstViolation(rules, user, data, orders, market) ==
      if !Holds(rules[0], user, data, orders, market) then Some(Violation(rules[0], data, market))
      else if !Holds(rules[1], user, data, orders, market) then Some(Violation(rules[1], data, market))
      else if !Holds(rules[2], user, data, orders, market) then Some(Violation(rules[2], data, market))
      else if !Holds(rules[3], user, data, orders, market) then Some(Violation(rules[3], data, market))
      else if !Holds(rules[4], user, data, orders, market) then Some(Violation(rules[4], data, market))
      else None
  {
    assert rules[0..] == rules;
    assert rules[5..] == [];
    FirstViolationStep(rules, 0, user, data, orders, market);
    FirstViolationStep(rules, 1, user, data, orders, market);
    FirstViolationStep(rules, 2, user, data, orders, market);
    FirstViolationStep(rules, 3, user, data, orders, market);
    FirstViolationStep(rules, 4, user, data, orders, market);
  }

  /** FirstViolation distributes over concatenation: the second list is consulted only if the first passes. */
  lemma {:induction false} FirstViolationAppend(a: seq<Rule>, b: seq<Rule>, user: User, data: OrderData, orders: seq<Order>, market: Market)
    ensures FirstViolation(a + b, user, data, orders, market)
            == if FirstViolation(a, user, data, orders, market).Some? then FirstViolation(a, user, data, orders, market)
               else FirstViolation(b, user, data, orders, market)
  {
    if a == [] {
      assert a + b == b;
    } else {
      assert (a + b)[0] == a[0];
      assert (a + b)[1..] == a[1..] + b;
      FirstViolationAppend(a[1..], b, user, data, orders, market);
    }
  }

  /** The first five stage-one rules: the user's status, the price and amount, and open buy orders. */
  lemma StageOneFrontRules(user: User, data: OrderData, orders: seq<Order>, market: Market)
    ensures FirstViolation([NotOnVacation, NotBanned, PriceAtLeastOne, AmountAtLeastOne, NoOpenBuyOrder],
                           user, data, orders, market)
            == if user.isInVacation then Some(InVacation)
               else if "deal" in user.ban then Some(BannedFromDeal)
               else if data.unitPrice < 1 then Some(UnitPriceBelowOne)
               else if data.amount < 1 then Some(AmountBelowOne)
               else if HasOpenBuyOrder(orders, data.companyId, user.id) then Some(BuyOrderExists)
               else None
  {
    FirstViolationOfFive([NotOnVacation, NotBanned, PriceAtLeastOne, AmountAtLeastOne, NoOpenBuyOrder],
                         user, data, orders, market);
    HasOpenBuyOrderExact(orders, user, data, market);
  }

  /** The last five stage-one rules: holdings, the company and the band. */
  lemma StageOneBackRules(user: User, data: OrderData, orders: seq<Order>, market: Market)
    ensures FirstViolation([EnoughStocks, CompanyListed, CompanyNotSealed, WithinLowerBand, WithinUpperBand],
                           user, data, orders, market)
            == if !HasStocks(market, data.companyId, user.id, data.amount) then Some(NotEnoughStocks)
               else if data.companyId !in market.companies then Some(CompanyNotFound)
               else if market.companies[data.companyId].isSeal
               then Some(CompanySealed(market.companies[data.companyId].companyName))
               else BandCheck(data.unitPrice, market.companies[data.companyId].listPrice, market.lowPriceThreshold)
  {
    FirstViolationOfFive([EnoughStocks, CompanyListed, CompanyNotSealed, WithinLowerBand, WithinUpperBand],
                         user, data, orders, market);
    if data.companyId in market.companies {
      BandCheckExact(data.unitPrice, market.companies[data.companyId].listPrice, market.lowPriceThreshold);
    }
  }

  /** The stage-one chain raises exactly the error of the first failing rule of StageOneRules. */
  lemma CheckSellOrderIsFirstViolation(user: User, data: OrderData, orders: seq<Order>, market: Market)
    ensures CheckSellOrder(user, data, orders, market) == FirstViolation(StageOneRules, user, data, orders, market)
  {
    var front := [NotOnVacation, NotBanned, PriceAtLeastOne, AmountAtLeastOne, NoOpenBuyOrder];
    var back := [EnoughStocks, CompanyListed, CompanyNotSealed, WithinLowerBand, WithinUpperBand];
    assert StageOneRules == front + back;
    FirstViolationAppend(front, back, user, data, orders, market);
    StageOneFrontRules(user, data, orders, market);
    StageOneBackRules(user, data, orders, market);
  }

  /** The locked chain raises exactly the error of the first failing rule of LockedRules. */
  lemma RecheckSellOrderIsFirstViolation(user: User, data: OrderData, orders: seq<Order>, market: Market)
    ensures RecheckSellOrder(user, data, orders, market) == FirstViolation(LockedRules, user, data, orders, market)
  {
    FirstViolationOfFive(LockedRules, user, data, orders, market);
    HasOpenBuyOrderExact(orders, user, data, market);
    if data.companyId in market.companies {
      BandCheckExact(data.unitPrice, market.companies[data.companyId].listPrice, market.lowPriceThreshold);
    }
  }

  // ---------------------------------------------------------------------------
  // Properties of the chains.

  /** Vacation is consulted first and the 'deal' ban second, whatever the order, holdings or company. */
  lemma UserStatusFirst(user: User, data: OrderData, orders: seq<Order>, market: Market)
    ensures user.isInVacation ==> CheckSellOrder(user, data, orders, market) == Some(InVacation)
    ensures !user.isInVacation && "deal" in user.ban ==> CheckSellOrder(user, data, orders, market) == Some(BannedFromDeal)
  {
  }

  /** A unit price below 1 is reported before an amount below 1; both before holdings, company or band. */
  lemma PriceAndAmountBeforeMarket(user: User, data: OrderData, orders: seq<Order>, market: Market)
    requires !user.isInVacation && "deal" !in user.ban
    ensures data.unitPrice < 1 ==> CheckSellOrder(user, data, orders, market) == Some(UnitPriceBelowOne)
    ensures data.unitPrice >= 1 && data.amount < 1 ==> CheckSellOrder(user, data, orders, market) == Some(AmountBelowOne)
  {
  }

  /** An open buy order for the same (company, user) rejects the sell in both chains. */
  lemma OpenBuyOrderAlwaysRejects(user: User, data: OrderData, orders: seq<Order>, market: Market, i: nat)
    requires i < |orders| && orders[i].orderType == Buy
    requires orders[i].companyId == data.companyId && orders[i].userId == user.id
    ensures CheckSellOrder(user, data, orders, market).Some?
    ensures RecheckSellOrder(user, data, orders, market).Some?
    ensures !user.isInVacation && "deal" !in user.ban && data.unitPrice >= 1 && data.amount >= 1
            ==> CheckSellOrder(user, data, orders, market) == Some(BuyOrderExists)
  {
  }

  /** The holdings rule: a missing director record or stocks < amount fails it; stocks == amount passes. */
  lemma HoldingsRule(user: User, data: OrderData, orders: seq<Order>, market: Market)
    requires !user.isInVacation && "deal" !in user.ban && data.unitPrice >= 1 && data.amount >= 1
    requires !HasOpenBuyOrder(orders, data.companyId, user.id)
    ensures DirectorKey(data.companyId, user.id) !in market.directors
            ==> CheckSellOrder(user, data, orders, market) == Some(NotEnoughStocks)
    ensures DirectorKey(data.companyId, user.id) in market.directors
            && market.directors[DirectorKey(data.companyId, user.id)] < data.amount
            ==> CheckSellOrder(user, data, orders, market) == Some(NotEnoughStocks)
    ensures DirectorKey(data.companyId, user.id) in market.directors
            && market.directors[DirectorKey(data.companyId, user.id)] == data.amount
            ==> CheckSellOrder(user, data, orders, market) != Some(NotEnoughStocks)
  {
  }

  /** A missing company yields the 404 error; a sealed one is rejected whatever the band would say. */
  lemma CompanyRules(user: User, data: OrderData, orders: seq<Order>, market: Market)
    requires !user.isInVacation && "deal" !in user.ban && data.unitPrice >= 1 && data.amount >= 1
    requires !HasOpenBuyOrder(orders, data.companyId, user.id)
    requires HasStocks(market, data.companyId, user.id, data.amount)
    ensures data.companyId !in market.companies
            ==> CheckSellOrder(user, data, orders, market) == Some(CompanyNotFound)
                && Status(CompanyNotFound) == 404
    ensures data.companyId in market.companies && market.companies[data.companyId].isSeal
            ==> CheckSellOrder(user, data, orders, market)
                == Some(CompanySealed(market.companies[data.companyId].companyName))
  {
  }

  /**
   * What a 404 tells the caller: in either chain the reported error has status 404
   * exactly when the company is missing and every guard that runs before that test passes.
   */
  lemma NotFoundStatus(user: User, data: OrderData, orders: seq<Order>, market: Market)
    ensures var r := CheckSellOrder(user, data, orders, market);
            (r.Some? && Status(r.value) == 404)
            <==> !user.isInVacation && "deal" !in user.ban && data.unitPrice >= 1 && data.amount >= 1
                 && !HasOpenBuyOrder(orders, data.companyId, user.id)
                 && HasStocks(market, data.companyId, user.id, data.amount)
                 && data.companyId !in market.companies
    ensures var r := RecheckSellOrder(user, data, orders, market);
            (r.Some? && Status(r.value) == 404)
            <==> HasStocks(market, data.companyId, user.id, data.amount)
                 && !HasOpenBuyOrder(orders, data.companyId, user.id)
                 && data.companyId !in market.companies
  {
  }

  /** Acceptance by the stage-one chain means every rule of the table holds. */
  lemma AcceptedMeetsEveryRule(user: User, data: OrderData, orders: seq<Order>, market: Market)
    requires CheckSellOrder(user, data, orders, market).None?
    ensures forall i | 0 <= i < |StageOneRules| :: Holds(StageOneRules[i], user, data, orders, market)
  {
    CheckSellOrderIsFirstViolation(user, data, orders, market);
    FirstViolationSpec(StageOneRules, user, data, orders, market);
  }

  /** Every rule the locked chain consults is also consulted by the stage-one chain. */
  lemma RecheckIsWeaker(user: User, data: OrderData, orders: seq<Order>, market: Market)
    requires CheckSellOrder(user, data, orders, market).None?
    ensures RecheckSellOrder(user, data, orders, market).None?
  {
    AcceptedMeetsEveryRule(user, data, orders, market);
    RecheckSellOrderIsFirstViolation(user, data, orders, market);
    FirstViolationSpec(LockedRules, user, data, orders, market);
    assert LockedRules[0] == StageOneRules[5];
    assert LockedRules[1] == StageOneRules[4];
    assert LockedRules[2] == StageOneRules[6];
    assert LockedRules[3] == StageOneRules[8];
    assert LockedRules[4] == StageOneRules[9];
  }

  /** The market with one company's isSeal flag replaced. */
  function WithSeal(market: Market, companyId: string, isSeal: bool): (m: Market)
    ensures m.directors == market.directors && m.lowPriceThreshold == market.lowPriceThreshold
    ensures m.companies.Keys == market.companies.Keys
  {
    if companyId in market.companies
    then market.(companies := market.companies[companyId := market.companies[companyId].(isSeal := isSeal)])
    else market
  }

  /** The locked chain ignores vacation, ban and seal: changing any of them leaves its verdict unchanged. */
  lemma RecheckIgnoresStatusAndSeal(user: User, data: OrderData, orders: seq<Order>, market: Market,
                                    isInVacation: bool, ban: seq<string>, isSeal: bool)
    ensures RecheckSellOrder(user.(isInVacation := isInVacation, ban := ban), data, orders,
                             WithSeal(market, data.companyId, isSeal))
            == RecheckSellOrder(user, data, orders, market)
  {
  }

  /** A company sealed after the stage-one chain passed does not stop the locked chain. */
  lemma SealedDuringWaitStillPasses(user: User, data: OrderData, orders: seq<Order>, market: Market)
    requires CheckSellOrder(user, data, orders, market).None?
    ensures CheckSellOrder(user, data, orders, WithSeal(market, data.companyId, true)).Some?
    ensures RecheckSellOrder(user, data, orders, WithSeal(market, data.companyId, true)).None?
  {
    RecheckIsWeaker(user, data, orders, market);
    RecheckIgnoresStatusAndSeal(user, data, orders, market, user.isInVacation, user.ban, true);
  }

  /**
   * The two chains test holdings and the open buy order in opposite orders, so the same
   * snapshot can be reported differently before and under the lock.
   */
  lemma ChainsDisagreeOnFirstFailure(user: User, data: OrderData, orders: seq<Order>, market: Market)
    requires !user.isInVacation && "deal" !in user.ban && data.unitPrice >= 1 && data.amount >= 1
    requires HasOpenBuyOrder(orders, data.companyId, user.id)
    requires !HasStocks(market, data.companyId, user.id, data.amount)
    ensures CheckSellOrder(user, data, orders, market) == Some(BuyOrderExists)
    ensures RecheckSellOrder(user, data, orders, market) == Some(NotEnoughStocks)
  {
  }
}
