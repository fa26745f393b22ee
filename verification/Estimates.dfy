/**
 The funding estimate of a buy is exact: with one cent less the order is refused or buys less,
 and the estimate is refused only for the reasons listed.
 */
module Estimates {
  import opened Sums
  import opened Domain
  import opened Matching
  import opened Settlement
  import opened MatchingLoops
  import opened Placement
  import opened Priority
  import opened Greedy

  /** Why there is no estimate. */
  predicate EstimateRefused(f: Floor, markets: seq<Venue>, req: Request, e: Error)
  {
    if req.side.Sell? then e == NotABuy
    else if req.market >= |markets| || !markets[req.market].active then e == MarketInactive
    else if req.kind.Limit? then
      e == ProductTooLarge && !(0 <= req.price && 0 <= req.quantity && req.price * req.quantity <= INT64_MAX)
    else
      (e == FundingTooLarge || e == ProductTooLarge)
      && CheapestCost(OffersFor(f, markets, req), req.quantity) > INT64_MAX
  }

  lemma AsksAreAscending(f: Floor, markets: seq<Venue>, req: Request)
    requires Sound(f, markets, -1) && req.market < |markets| && req.side.Buy?
    ensures Ascending(OffersFor(f, markets, req))
  {
    hide Sum; hide Total; hide Candidates;
    var q := MakerQuery(req, markets[req.market].book);
    var ids := Candidates(f.orders, markets, q);
    CandidatesAreTheQueue(f.orders, markets, q);
    forall k | 0 <= k < |ids|
      ensures 0 < f.orders[ids[k]].price && 0 < f.orders[ids[k]].remaining
    {
      assert Eligible(f.orders[ids[k]], markets, q) && RowOk(f.orders[ids[k]]);
    }
    forall j, k | 0 <= j < k < |ids|
      ensures f.orders[ids[j]].price <= f.orders[ids[k]].price
    {
      assert Before(f.orders, Sell, ids[j], ids[k]);
    }
  }

  /** There is an estimate exactly for buys on an active market whose cost fits 64 bits. */
  lemma EstimateIsRefusedForCause(f: Floor, markets: seq<Venue>, req: Request)
    requires Sound(f, markets, -1) && 0 <= req.quantity
    ensures match BuyFunding(f, markets, req)
            case Err(e) => EstimateRefused(f, markets, req, e)
            case Ok(r) => forall e :: !EstimateRefused(f, markets, req, e)
  {
    hide Sum; hide Total; hide Sound; hide Candidates; hide FundingLoop; hide CheapestCost; hide OffersOf;
    if req.side.Buy? && req.market < |markets| && req.kind.Market? {
      AsksAreAscending(f, markets, req);
      FundingIsCheapestCost(f.orders, Candidates(f.orders, markets, MakerQuery(req, markets[req.market].book)),
                            req.quantity, 0);
    }
  }

  // ----- limit buys -----

  lemma {:induction false} LimitLoopIsPaid(f: Floor, req: Request, taker: Id, asks: seq<Id>, c: Cursor)
    requires ValidMakers(f, asks) && req.player in f.accounts && req.kind.Limit?
    ensures BuyLoop(f, req, taker, asks, c) != Err(InsufficientBalance)
    decreases |asks|
  {
    if asks != [] && c.remaining != 0 {
      var ask := f.orders[asks[0]];
      var fill := BuyQuantity(f, req, ask, c.remaining);
      var r := BuyFill(f, req, taker, asks[0], fill);
      LimitFillIsPaid(f, req, taker, asks[0], fill);
      hide BuyFill;
      if r.Ok? {
        LimitLoopIsPaid(r.value, req, taker, asks[1..],
                        Cursor(c.remaining - fill, c.filled + fill, c.gross + ask.price * fill));
      }
    }
  }

  lemma LimitFillIsPaid(f: Floor, req: Request, taker: Id, id: Id, fill: int)
    requires id < |f.orders| && req.kind.Limit?
    ensures BuyFill(f, req, taker, id, fill) != Err(InsufficientBalance)
  {
  }

  /**
   The estimate of a limit buy is the least balance with which it is accepted: with any other
   balance `b` in the account, the order is refused for lack of money exactly if `b` is less.
   */
  lemma LimitEstimateIsExact(f: Floor, markets: seq<Venue>, req: Request, b: int)
    requires PricedRows(f) && ValidOrder(req) && req.side.Buy? && req.kind.Limit?
    ensures var g := f.(accounts := f.accounts[req.player := b]);
            match BuyFunding(f, markets, req)
            case Err(e) => e == MarketInactive && PlaceBuy(g, markets, req).Err?
            case Ok(r) => PlaceBuy(g, markets, req) == Err(InsufficientBalance) <==> b < r
  {
    hide BuyLoop; hide Candidates; hide PricedRows;
    if req.market < |markets| && markets[req.market].active {
      var g := f.(accounts := f.accounts[req.player := b]);
      var start := OpenBuy(g, req);
      if start.Ok? {
        var asks := Candidates(start.value.orders, markets, MakerQuery(req, markets[req.market].book));
        OpenedMakers(f, g, markets, req, asks);
        LimitLoopIsPaid(start.value, req, |f.orders|, asks, Cursor(req.quantity, 0, 0));
      }
    }
  }

  lemma OpenedMakers(f: Floor, g: Floor, markets: seq<Venue>, req: Request, asks: seq<Id>)
    requires PricedRows(f) && g.orders == f.orders && ValidOrder(req) && req.market < |markets|
    requires OpenBuy(g, req).Ok? && req.kind.Limit?
    requires asks == Candidates(OpenBuy(g, req).value.orders, markets, MakerQuery(req, markets[req.market].book))
    ensures ValidMakers(OpenBuy(g, req).value, asks) && req.player in OpenBuy(g, req).value.accounts
  {
    hide Candidates;
  }

  // ----- market buys -----

  /** With the estimate as balance a market buy fills all there is, up to its quantity; with less it does not. */
  lemma MarketEstimateIsExact(f: Floor, markets: seq<Venue>, req: Request, estimate: int)
    requires Sound(f, markets, -1) && ValidOrder(req) && req.side.Buy? && req.kind.Market? && PricedRows(f)
    requires BuyFunding(f, markets, req) == Ok(estimate) && req.player in f.accounts
    ensures match PlaceBuy(f, markets, req)
            case Err(e) => e == BalanceOverflow
            case Ok((_, x)) =>
              (x.filled == Min(req.quantity, TotalUnits(OffersFor(f, markets, req)))
               <==> estimate <= f.accounts[req.player])
  {
    hide Sum; hide Total; hide Sound; hide PlaceBuy; hide PricedRows; hide Candidates; hide FundingLoop; hide Executed;
    hide CheapestCost; hide TotalUnits; hide OffersOf; hide Cheapest; hide Ascending;
    PlaceBuyExecutes(f, markets, req);
    MarketBuyResult(f, markets, req);
    assert Prepaid(req) * req.quantity == 0;
    BalancesAreNatural(f, markets, req.player);
    if PlaceBuy(f, markets, req).Ok? {
      var offers := OffersFor(f, markets, req);
      FundingIsCheapestCost(f.orders, Candidates(f.orders, markets, MakerQuery(req, markets[req.market].book)),
                            req.quantity, 0);
      CheapestStops(offers, req.quantity, f.accounts[req.player]);
      StockIsNatural(offers);
      if TotalUnits(offers) <= req.quantity { CostSaturates(offers, req.quantity); }
      if estimate <= f.accounts[req.player] { EstimateSuffices(offers, req.quantity, f.accounts[req.player]); }
    }
  }
}
