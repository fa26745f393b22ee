/**
 Market buys are optimal: taking the cheapest asks first buys as many units as the money
 allows, and no choice of asks buys as many for less.
 */
module Greedy {
  import opened Sums
  import opened Domain
  import opened Matching
  import opened Settlement
  import opened MatchingLoops
  import opened Placement
  import opened Priority

  /** What an ask offers to a buyer. */
  datatype Offer = Offer(price: int, units: int)

  function OffersOf(orders: seq<Order>, asks: seq<Id>): (offers: seq<Offer>)
    requires forall k :: 0 <= k < |asks| ==> asks[k] < |orders|
    ensures |offers| == |asks|
  {
    seq(|asks|, k requires 0 <= k < |asks| => Offer(orders[asks[k]].price, orders[asks[k]].remaining))
  }

  /** Offers with something to sell, cheapest first. */
  predicate Ascending(offers: seq<Offer>)
  {
    && (forall k :: 0 <= k < |offers| ==> 0 < offers[k].price && 0 < offers[k].units)
    && (forall j, k :: 0 <= j < k < |offers| ==> offers[j].price <= offers[k].price)
  }

  function Units(take: seq<int>): int
  {
    if take == [] then 0 else take[0] + Units(take[1..])
  }

  function Cost(offers: seq<Offer>, take: seq<int>): int
    requires |take| == |offers|
  {
    if take == [] then 0 else offers[0].price * take[0] + Cost(offers[1..], take[1..])
  }

  /** A choice takes no more of any offer than there is. */
  predicate Choice(offers: seq<Offer>, take: seq<int>)
  {
    |take| == |offers| && forall k :: 0 <= k < |take| ==> 0 <= take[k] <= offers[k].units
  }

  /** The units and the cost of buying up to `quantity` units for at most `budget`, cheapest first. */
  function Cheapest(offers: seq<Offer>, quantity: int, budget: int): (int, int)
    requires forall k :: 0 <= k < |offers| ==> 0 < offers[k].price
  {
    if offers == [] || quantity == 0 then (0, 0)
    else
      var fill := Min(Min(quantity, offers[0].units), budget / offers[0].price);
      if fill <= 0 then (0, 0)
      else
        var (units, cost) := Cheapest(offers[1..], quantity - fill, budget - offers[0].price * fill);
        (units + fill, cost + offers[0].price * fill)
  }

  function TotalUnits(offers: seq<Offer>): int
  {
    if offers == [] then 0 else offers[0].units + TotalUnits(offers[1..])
  }

  /** The cost of the `k` cheapest units, or of all of them when there are fewer. */
  function CheapestCost(offers: seq<Offer>, k: int): int
  {
    if offers == [] || k <= 0 then 0
    else
      var fill := Min(k, offers[0].units);
      offers[0].price * fill + CheapestCost(offers[1..], k - fill)
  }

  lemma TailAscending(offers: seq<Offer>)
    requires Ascending(offers) && offers != []
    ensures Ascending(offers[1..]) && forall k :: 0 <= k < |offers| - 1 ==> offers[0].price <= offers[1..][k].price
    ensures 0 < offers[0].price && 0 < offers[0].units
  {
  }

  /** `extra` further units cost at least the lowest price each. */
  lemma {:induction false} Marginal(offers: seq<Offer>, k: int, extra: int, price: int)
    requires Ascending(offers) && 0 <= k && 0 <= extra && k + extra <= TotalUnits(offers) && 0 <= price
    requires forall i :: 0 <= i < |offers| ==> price <= offers[i].price
    ensures CheapestCost(offers, k + extra) >= CheapestCost(offers, k) + price * extra
    decreases |offers|
  {
    if offers != [] && extra > 0 {
      TailAscending(offers);
      var p, u := offers[0].price, offers[0].units;
      var a, b := Min(k, u), Min(k + extra, u);
      var rest := offers[1..];
      StockIsNatural(rest);
      Marginal(rest, k - a, (k + extra - b) - (k - a), price);
      assert p * b == p * a + p * (b - a);
      assert price * extra == price * (b - a) + price * (extra - (b - a));
      MoreIsDearer(price, p, b - a);
    }
  }

  lemma MoreIsDearer(low: int, high: int, n: int)
    requires low <= high && 0 <= n
    ensures low * n <= high * n
  {
  }

  lemma {:induction false} UnitsInStock(offers: seq<Offer>, take: seq<int>)
    requires Choice(offers, take)
    ensures 0 <= Units(take) <= TotalUnits(offers)
    decreases |offers|
  {
    if offers != [] {
      assert Choice(offers[1..], take[1..]);
      UnitsInStock(offers[1..], take[1..]);
    }
  }

  /** No choice of that many units is cheaper than the cheapest ones. */
  lemma {:induction false} NoCheaperChoice(offers: seq<Offer>, take: seq<int>)
    requires Ascending(offers) && Choice(offers, take)
    ensures Cost(offers, take) >= CheapestCost(offers, Units(take))
    decreases |offers|
  {
    hide Ascending;
    if offers != [] {
      var rest, later := offers[1..], take[1..];
      TailAscending(offers);
      assert Choice(rest, later);
      UnitsInStock(rest, later);
      NoCheaperChoice(rest, later);
      var p, t := offers[0].price, take[0];
      var fill := Min(Units(take), offers[0].units);
      Marginal(rest, Units(take) - fill, fill - t, p);
      SplitCost(p, t, fill - t);
    }
  }

  lemma SplitCost(p: int, a: int, b: int)
    ensures p * (a + b) == p * a + p * b
  {
  }

  ghost predicate StopsRight(offers: seq<Offer>, quantity: int, budget: int, u: int, c: int)
  {
    && 0 <= u <= quantity && u <= TotalUnits(offers) && c == CheapestCost(offers, u) && c <= budget
    && (u < quantity && u < TotalUnits(offers) ==> CheapestCost(offers, u + 1) > budget)
  }

  lemma StopsRightStep(offers: seq<Offer>, quantity: int, budget: int, fill: int, u: int, c: int)
    requires Ascending(offers) && offers != []
    requires 0 < fill <= Min(quantity, offers[0].units) && offers[0].price * fill <= budget
    requires StopsRight(offers[1..], quantity - fill, budget - offers[0].price * fill, u, c)
    requires fill < offers[0].units && fill < quantity ==> budget - offers[0].price * fill < offers[0].price
    ensures StopsRight(offers, quantity, budget, u + fill, c + offers[0].price * fill)
  {
    hide CheapestCost; hide Ascending;
    var o, rest := offers[0], offers[1..];
    TailAscending(offers);
    StockIsNatural(rest);
    if fill == o.units {
      CostAfterFirst(offers, u);
      CostAfterFirst(offers, u + 1);
    } else if fill < quantity {
      Marginal(rest, 0, u, o.price);
      if u > 0 { MoreUnitsCostMore(o.price, u); }
      CostOfNone(rest);
      CostWithinFirst(offers, fill);
      CostWithinFirst(offers, fill + 1);
      SplitCost(o.price, fill, 1);
    } else {
      CostOfNone(rest);
      CostWithinFirst(offers, fill);
    }
  }

  lemma CostOfNone(offers: seq<Offer>)
    ensures CheapestCost(offers, 0) == 0
  {
  }

  lemma CostAfterFirst(offers: seq<Offer>, u: int)
    requires offers != [] && 0 <= u && 0 < offers[0].units
    ensures CheapestCost(offers, offers[0].units + u)
            == offers[0].price * offers[0].units + CheapestCost(offers[1..], u)
  {
  }

  lemma CostWithinFirst(offers: seq<Offer>, n: int)
    requires offers != [] && 0 < n <= offers[0].units
    ensures CheapestCost(offers, n) == offers[0].price * n
  {
    CostOfNone(offers[1..]);
  }

  lemma MoreUnitsCostMore(price: int, n: int)
    requires 0 < price && 0 < n
    ensures price <= price * n
  {
  }

  /** Cheapest-first stops at the quantity, at the end of the offers, or where one more unit is too dear. */
  lemma {:induction false} CheapestStops(offers: seq<Offer>, quantity: int, budget: int)
    requires Ascending(offers) && 0 <= quantity && 0 <= budget
    ensures var (u, c) := Cheapest(offers, quantity, budget); StopsRight(offers, quantity, budget, u, c)
    decreases |offers|
  {
    hide StopsRight; hide CheapestCost; hide TotalUnits;
    if offers == [] || quantity == 0 {
      StopsAtOnce(offers, quantity, budget);
    } else {
      TailAscending(offers);
      var o, rest := offers[0], offers[1..];
      var fill := Min(Min(quantity, o.units), budget / o.price);
      QuotientBound(budget, o.price, 1);
      QuotientBound(budget, o.price, fill);
      QuotientBound(budget, o.price, fill + 1);
      if fill <= 0 {
        StopsAtOnce(offers, quantity, budget);
      } else {
        assert o.price * (fill + 1) == o.price * fill + o.price;
        CheapestStops(rest, quantity - fill, budget - o.price * fill);
        var (u, c) := Cheapest(rest, quantity - fill, budget - o.price * fill);
        StopsRightStep(offers, quantity, budget, fill, u, c);
      }
    }
  }

  lemma StopsAtOnce(offers: seq<Offer>, quantity: int, budget: int)
    requires Ascending(offers) && 0 <= quantity && 0 <= budget
    requires offers == [] || quantity == 0 || budget < offers[0].price
    ensures StopsRight(offers, quantity, budget, 0, 0)
  {
    StockIsNatural(offers);
  }

  lemma {:induction false} StockIsNatural(offers: seq<Offer>)
    requires Ascending(offers)
    ensures 0 <= TotalUnits(offers)
    decreases |offers|
  {
    if offers != [] {
      TailAscending(offers);
      StockIsNatural(offers[1..]);
    }
  }

  /**
   Optimality: cheapest-first buys at least as many units as any choice within the quantity and
   the budget, and any choice of as many units costs at least as much.
   */
  lemma CheapestIsOptimal(offers: seq<Offer>, quantity: int, budget: int, take: seq<int>)
    requires Ascending(offers) && 0 <= quantity && 0 <= budget
    requires Choice(offers, take) && Units(take) <= quantity && Cost(offers, take) <= budget
    ensures var (u, c) := Cheapest(offers, quantity, budget);
            Units(take) <= u && (Units(take) == u ==> c <= Cost(offers, take))
  {
    var (u, c) := Cheapest(offers, quantity, budget);
    var k := Units(take);
    CheapestStops(offers, quantity, budget);
    UnitsInStock(offers, take);
    NoCheaperChoice(offers, take);
    if k > u {
      Marginal(offers, u + 1, k - (u + 1), 0);
    }
  }

  /** The optimum is itself a choice, so it cannot be bettered and can be had. */
  lemma {:induction false} CheapestIsAChoice(offers: seq<Offer>, quantity: int, budget: int) returns (take: seq<int>)
    requires Ascending(offers) && 0 <= quantity && 0 <= budget
    ensures Choice(offers, take) && Cheapest(offers, quantity, budget) == (Units(take), Cost(offers, take))
    decreases |offers|
  {
    if offers == [] {
      take := [];
    } else {
      TailAscending(offers);
      var o := offers[0];
      var fill := if quantity == 0 then 0 else Min(Min(quantity, o.units), budget / o.price);
      QuotientBound(budget, o.price, 0);
      QuotientBound(budget, o.price, fill);
      var rest;
      if fill <= 0 {
        rest := CheapestIsAChoice(offers[1..], 0, 0);
        assert Cheapest(offers[1..], 0, 0) == (0, 0);
      } else {
        rest := CheapestIsAChoice(offers[1..], quantity - fill, budget - o.price * fill);
      }
      take := [if fill <= 0 then 0 else fill] + rest;
      assert take[1..] == rest;
    }
  }

  // ----- the matching loop is cheapest-first -----

  lemma OffersAreAscending(f: Floor, markets: seq<Venue>, req: Request, taker: Id, asks: seq<Id>, c: Cursor)
    requires Queued(f, markets, req, taker, asks, c) && req.side.Buy?
    ensures Ascending(OffersOf(f.orders, asks))
  {
    hide Sum; hide Total;
    var offers := OffersOf(f.orders, asks);
    forall k | 0 <= k < |offers|
      ensures 0 < offers[k].price && 0 < offers[k].units
    {
      assert Meets(f, markets, taker, asks[k]) && RowOk(f.orders[asks[k]]);
    }
    forall j, k | 0 <= j < k < |offers|
      ensures offers[j].price <= offers[k].price
    {
      assert Before(f.orders, Sell, asks[j], asks[k]);
    }
  }

  lemma OffersAfterFill(f: Floor, g: Floor, markets: seq<Venue>, taker: Id, asks: seq<Id>, q: int)
    requires asks != [] && Makers(f, markets, taker, asks) && FillShape(f, g, taker, asks[0], q)
    requires forall k :: 0 <= k < |asks| ==> asks[k] < |f.orders|
    ensures OffersOf(g.orders, asks[1..]) == OffersOf(f.orders, asks)[1..]
  {
  }

  /** A market buy fills exactly what cheapest-first does with the balance it starts from. */
  lemma {:induction false} MarketBuyIsCheapest(f: Floor, markets: seq<Venue>, req: Request, taker: Id, asks: seq<Id>,
                                               c: Cursor)
    requires Queued(f, markets, req, taker, asks, c) && req.side.Buy? && req.kind.Market?
    requires ValidMakers(f, asks) && req.player in f.accounts && forall k :: 0 <= k < |asks| ==> asks[k] < |f.orders|
    requires Ascending(OffersOf(f.orders, asks))
    ensures match BuyLoop(f, req, taker, asks, c)
            case Err(_) => true
            case Ok((g, d)) => (d.filled - c.filled, d.gross - c.gross)
                               == Cheapest(OffersOf(f.orders, asks), c.remaining, f.accounts[req.player])
    decreases |asks|
  {
    hide Queued; hide BuyFill; hide Makers; hide FillShape; hide Sum; hide Total;
    QueuedFacts(f, markets, req, taker, asks, c);
    var offers := OffersOf(f.orders, asks);
    if asks != [] && c.remaining > 0 {
      BuyServes(f, markets, req, taker, asks, c);
      var ask := f.orders[asks[0]];
      var fill := BuyQuantity(f, req, ask, c.remaining);
      if fill > 0 {
        var r := BuyFill(f, req, taker, asks[0], fill);
        if r.Ok? {
          var g, d := r.value, Advance(c, ask.price, fill);
          QueuedFacts(g, markets, req, taker, asks[1..], d);
          OffersAfterFill(f, g, markets, taker, asks, fill);
          TailAscending(offers);
          MarketBuyIsCheapest(g, markets, req, taker, asks[1..], d);
        }
      }
    }
  }

  // ----- the funding estimate -----

  /** The estimate is the cost of the cheapest units, unless that cost does not fit 64 bits. */
  lemma {:induction false} FundingIsCheapestCost(orders: seq<Order>, asks: seq<Id>, quantity: int, required: int)
    requires forall k :: 0 <= k < |asks| ==> asks[k] < |orders|
    requires Ascending(OffersOf(orders, asks)) && 0 <= quantity && 0 <= required <= INT64_MAX
    ensures 0 <= CheapestCost(OffersOf(orders, asks), quantity)
    ensures var due := required + CheapestCost(OffersOf(orders, asks), quantity);
            match FundingLoop(orders, asks, quantity, required)
            case Ok(r) => r == due && due <= INT64_MAX
            case Err(e) => due > INT64_MAX && (e == FundingTooLarge || e == ProductTooLarge)
    decreases |asks|
  {
    if asks != [] && quantity > 0 {
      var offers := OffersOf(orders, asks);
      var o := offers[0];
      var fill := Min(quantity, o.units);
      assert OffersOf(orders, asks[1..]) == offers[1..];
      TailAscending(offers);
      SmallerProduct(o.price, 0, fill);
      if required + o.price * fill <= INT64_MAX {
        FundingIsCheapestCost(orders, asks[1..], quantity - fill, required + o.price * fill);
      } else {
        CheapestCostIsNatural(offers[1..], quantity - fill);
      }
    }
  }

  lemma {:induction false} CheapestCostIsNatural(offers: seq<Offer>, k: int)
    requires Ascending(offers)
    ensures 0 <= CheapestCost(offers, k)
    decreases |offers|
  {
    if offers != [] && k > 0 {
      TailAscending(offers);
      SmallerProduct(offers[0].price, 0, Min(k, offers[0].units));
      CheapestCostIsNatural(offers[1..], k - Min(k, offers[0].units));
    }
  }

  lemma {:induction false} CostSaturates(offers: seq<Offer>, k: int)
    requires Ascending(offers) && TotalUnits(offers) <= k
    ensures CheapestCost(offers, k) == CheapestCost(offers, TotalUnits(offers))
    decreases |offers|
  {
    if offers != [] {
      TailAscending(offers);
      StockIsNatural(offers[1..]);
      CostSaturates(offers[1..], k - offers[0].units);
    }
  }

  /** A budget of at least the estimate buys everything there is, up to the quantity, for the estimate. */
  lemma EstimateSuffices(offers: seq<Offer>, quantity: int, budget: int)
    requires Ascending(offers) && 0 <= quantity && CheapestCost(offers, quantity) <= budget
    ensures Cheapest(offers, quantity, budget) == (Min(quantity, TotalUnits(offers)), CheapestCost(offers, quantity))
  {
    CheapestCostIsNatural(offers, quantity);
    CheapestStops(offers, quantity, budget);
    StockIsNatural(offers);
    var (u, c) := Cheapest(offers, quantity, budget);
    var all := Min(quantity, TotalUnits(offers));
    if TotalUnits(offers) <= quantity { CostSaturates(offers, quantity); }
    if u < all {
      Marginal(offers, u + 1, all - (u + 1), 0);
    }
  }

  // ----- whole market buys -----

  /** The offers a market buy of `req` finds, before it is placed. */
  function OffersFor(f: Floor, markets: seq<Venue>, req: Request): seq<Offer>
    requires req.market < |markets|
  {
    OffersOf(f.orders, Candidates(f.orders, markets, MakerQuery(req, markets[req.market].book)))
  }

  /** What a committed market buy filled and paid is the cheapest-first result. */
  lemma MarketBuyResult(f: Floor, markets: seq<Venue>, req: Request)
    requires Sound(f, markets, -1) && ValidOrder(req) && req.side.Buy? && req.kind.Market? && PricedRows(f)
    ensures match PlaceBuy(f, markets, req)
            case Err(_) => true
            case Ok((k, x)) =>
              && req.market < |markets| && req.player in f.accounts && 0 <= f.accounts[req.player]
              && Ascending(OffersFor(f, markets, req))
              && (x.filled, x.gross) == Cheapest(OffersFor(f, markets, req), req.quantity, f.accounts[req.player])
  {
    hide Sum; hide Total; hide Sound; hide OpenBuy; hide Running; hide Candidates; hide PricedRows; hide SameHoldings;
    hide BuyLoop; hide ValidMakers; hide Queued; hide OffersOf; hide Cheapest; hide Ascending;
    if PlaceBuy(f, markets, req).Ok? {
      var g := OpenBuy(f, req).value;
      var q := MakerQuery(req, markets[req.market].book);
      var c := Cursor(req.quantity, 0, 0);
      var asks := Candidates(g.orders, markets, q);
      OpenBuyReady(f, g, markets, req);
      OpenedIsQueued(f, g, markets, req);
      QueuedFacts(g, markets, req, |f.orders|, asks, c);
      OffersAreAscending(g, markets, req, |f.orders|, asks, c);
      MarketBuyIsCheapest(g, markets, req, |f.orders|, asks, c);
      SameQueueAfterInsertion(f, g, markets, req, NewOrder(req, 0));
      assert OffersFor(f, markets, req) == OffersOf(g.orders, asks) by { SameOffers(f, g, asks); }
    }
  }

  lemma SameOffers(f: Floor, g: Floor, asks: seq<Id>)
    requires |f.orders| < |g.orders| && g.orders[..|f.orders|] == f.orders
    requires forall k :: 0 <= k < |asks| ==> asks[k] < |f.orders|
    ensures OffersOf(f.orders, asks) == OffersOf(g.orders, asks)
  {
    forall k | 0 <= k < |asks|
      ensures f.orders[asks[k]] == g.orders[asks[k]]
    {
      assert g.orders[..|f.orders|][asks[k]] == g.orders[asks[k]];
    }
  }

  /** Greedy optimality of a committed market buy, against every other choice of asks. */
  lemma MarketBuyIsOptimal(f: Floor, markets: seq<Venue>, req: Request, take: seq<int>)
    requires Sound(f, markets, -1) && ValidOrder(req) && req.side.Buy? && req.kind.Market? && PricedRows(f)
    requires req.market < |markets| && req.player in f.accounts
    requires Choice(OffersFor(f, markets, req), take) && Units(take) <= req.quantity
    requires Cost(OffersFor(f, markets, req), take) <= f.accounts[req.player]
    ensures match PlaceBuy(f, markets, req)
            case Err(_) => true
            case Ok((_, x)) =>
              Units(take) <= x.filled && (Units(take) == x.filled ==> x.gross <= Cost(OffersFor(f, markets, req), take))
  {
    hide Sum; hide Total; hide Sound; hide PlaceBuy; hide OffersFor; hide PricedRows;
    MarketBuyResult(f, markets, req);
    if PlaceBuy(f, markets, req).Ok? {
      CheapestIsOptimal(OffersFor(f, markets, req), req.quantity, f.accounts[req.player], take);
    }
  }

  lemma BalancesAreNatural(f: Floor, markets: seq<Venue>, p: Player)
    requires Sound(f, markets, -1) && p in f.accounts
    ensures 0 <= f.accounts[p] <= INT64_MAX
  {
  }

  /** With the estimate as balance a market buy fills all there is, for exactly the estimate. */
  lemma MarketFundingSuffices(f: Floor, markets: seq<Venue>, req: Request, estimate: int)
    requires Sound(f, markets, -1) && ValidOrder(req) && req.side.Buy? && req.kind.Market? && PricedRows(f)
    requires BuyFunding(f, markets, req) == Ok(estimate)
    requires req.player in f.accounts && estimate <= f.accounts[req.player]
    ensures match PlaceBuy(f, markets, req)
            case Err(e) => e == BalanceOverflow
            case Ok((_, x)) => x.gross == estimate
                               && x.filled == Min(req.quantity, TotalUnits(OffersFor(f, markets, req)))
  {
    hide Sum; hide Total; hide Sound; hide PlaceBuy; hide PricedRows; hide Candidates; hide FundingLoop; hide Executed;
    PlaceBuyExecutes(f, markets, req);
    MarketBuyResult(f, markets, req);
    BalancesAreNatural(f, markets, req.player);
    assert Prepaid(req) * req.quantity == 0;
    if PlaceBuy(f, markets, req).Ok? {
      FundingIsCheapestCost(f.orders, Candidates(f.orders, markets, MakerQuery(req, markets[req.market].book)),
                            req.quantity, 0);
      EstimateSuffices(OffersFor(f, markets, req), req.quantity, f.accounts[req.player]);
    }
  }

  /** With the estimate as balance a limit buy is not short of money, and costs no more. */
  lemma LimitFundingSuffices(f: Floor, markets: seq<Venue>, req: Request, estimate: int)
    requires Sound(f, markets, -1) && ValidOrder(req) && req.side.Buy? && req.kind.Limit? && PricedRows(f)
    requires BuyFunding(f, markets, req) == Ok(estimate)
    requires req.player in f.accounts && estimate <= f.accounts[req.player]
    ensures match PlaceBuy(f, markets, req)
            case Err(e) => e == BalanceOverflow
            case Ok((_, x)) => x.gross <= estimate
  {
    hide Sum; hide Total; hide Sound; hide PlaceBuy; hide PricedRows; hide Candidates; hide Executed;
    PlaceBuyExecutes(f, markets, req);
    if PlaceBuy(f, markets, req).Ok? {
      var (k, x) := PlaceBuy(f, markets, req).value;
      LimitCostsWithinReserve(f, k, markets, req, x);
    }
  }

  lemma LimitCostsWithinReserve(f: Floor, k: Floor, markets: seq<Venue>, req: Request, x: Execution)
    requires Executed(f, k, markets, req, x) && req.kind.Limit? && req.side.Buy? && ValidOrder(req)
    ensures x.gross <= req.price * req.quantity
  {
    hide Total; hide Sum; hide Sound; hide SameHoldings;
    BuyTradesWithinLimit(k, markets, x.order);
    ValueWithinUnits(k.trades, x.order, req.price);
    TradedWithinOriginal(k, markets, x.order);
    SmallerProduct(req.price, x.filled, req.quantity);
  }

  lemma BuyTradesWithinLimit(k: Floor, markets: seq<Venue>, id: Id)
    requires Sound(k, markets, -1)
    requires id < |k.orders| && k.orders[id].side.Buy? && k.orders[id].kind.Limit?
    ensures forall i :: 0 <= i < |k.trades| ==>
              ValueOf(Buy, id)(k.trades[i]) <= k.orders[id].price * UnitsOf(Buy, id)(k.trades[i])
  {
    hide Total; hide Sum;
    forall i | 0 <= i < |k.trades|
      ensures ValueOf(Buy, id)(k.trades[i]) <= k.orders[id].price * UnitsOf(Buy, id)(k.trades[i])
    {
      assert TradeOk(k.orders, markets, k.trades[i]);
    }
  }

  lemma {:induction false} ValueWithinUnits(trades: seq<Trade>, id: Id, price: int)
    requires forall i :: 0 <= i < |trades| ==> ValueOf(Buy, id)(trades[i]) <= price * UnitsOf(Buy, id)(trades[i])
    ensures Sum(trades, ValueOf(Buy, id)) <= price * Sum(trades, UnitsOf(Buy, id))
  {
    if trades != [] {
      var front := trades[..|trades| - 1];
      assert forall i :: 0 <= i < |front| ==> front[i] == trades[i];
      ValueWithinUnits(front, id, price);
      SplitCost(price, Sum(front, UnitsOf(Buy, id)), UnitsOf(Buy, id)(trades[|trades| - 1]));
    }
  }

  lemma TradedWithinOriginal(k: Floor, markets: seq<Venue>, id: Id)
    requires Sound(k, markets, -1) && id < |k.orders|
    ensures 0 <= Traded(k, id) <= k.orders[id].original
  {
    hide Total; hide Sum;
    assert RowOk(k.orders[id]) && TradedOk(k.orders[id], Traded(k, id));
  }
}
