/**
 While all money inside the exchange fits 64 bits no balance can overflow, so orders, cancellations,
 retirements and escrow sells are refused for a reason the caller can see beforehand.
 */
module Solvency {
  import opened Sums
  import opened Domain
  import opened Matching
  import opened Settlement
  import opened MatchingLoops
  import opened Placement
  import opened Proceeds
  import opened Cancellation
  import opened Exchange
  import opened Invariants
  import opened StepsMoney
  import opened StepsTrade

  // ----- one balance against all money -----

  lemma {:induction false} ValueWithinTotal(m: map<Player, int>, p: Player)
    requires p in m && forall q :: q in m ==> 0 <= m[q]
    ensures 0 <= Total(m - {p}) && 0 <= m[p] <= Total(m)
    decreases |m|
  {
    TotalRemove(m, p);
    var rest := m - {p};
    if rest != map[] {
      var q :| q in rest;
      ValueWithinTotal(rest, q);
    }
  }

  lemma BalanceWithinTotal(f: Floor, p: Player)
    requires BankOk(f) && p in f.accounts
    ensures 0 <= f.accounts[p] <= Total(f.accounts)
  {
    hide Sum; hide Total;
    ValueWithinTotal(f.accounts, p);
  }

  /** The reserve of one row is part of the money inside, when no row holds a negative one. */
  lemma ReserveWithinMoney(f: Floor, id: Id)
    requires BankOk(f) && id < |f.orders| && (f.orders[id].status.Open? || f.orders[id].status.Partial?)
    requires forall i: nat :: i < |f.orders| ==> 0 <= f.orders[i].reserved
    ensures 0 <= Sum(f.orders, OpenReserve())
    ensures Total(f.accounts) + f.orders[id].reserved <= Money(f)
  {
    hide Sum; hide Total; hide BankOk;
    SumNonNegative(f.orders, OpenReserve());
    assert OpenReserve()(f.orders[id]) == f.orders[id].reserved;
  }

  lemma ReservesAreNatural(f: Floor, markets: seq<Venue>, x: int)
    requires Sound(f, markets, x)
    ensures forall i: nat :: i < |f.orders| && i != x ==> 0 <= f.orders[i].reserved
  {
    hide Sum; hide Total;
    forall i: nat | i < |f.orders| && i != x
      ensures 0 <= f.orders[i].reserved
    {
      assert RowOk(f.orders[i]);
      if f.orders[i].kind.Limit? { SmallerProduct(f.orders[i].price, 0, f.orders[i].remaining); }
    }
  }

  lemma TotalWithinMoney(f: Floor, markets: seq<Venue>)
    requires Sound(f, markets, -1)
    ensures Total(f.accounts) <= Money(f)
  {
    hide Sum; hide Total; hide Sound;
    ReservesAreNatural(f, markets, -1);
    SumNonNegative(f.orders, OpenReserve());
  }

  // ----- buys -----

  /** A credit that keeps the total within 64 bits succeeds. */
  lemma CreditFits(f: Floor, p: Player, amount: int, reason: LedgerReason, reference: Option<Id>)
    requires BankOk(f) && p in f.accounts && 0 <= amount && Total(f.accounts) + amount <= INT64_MAX
    ensures Credit(f, p, amount, reason, reference).Ok?
  {
    hide Sum; hide Total;
    BalanceWithinTotal(f, p);
  }

  /** A fill that keeps the buyer's prepaid money within the total succeeds. */
  lemma BuyFillFits(f: Floor, markets: seq<Venue>, req: Request, taker: Id, id: Id, fill: int)
    requires Sound(f, markets, taker) && TakerRow(f, req, taker) && req.side.Buy? && Meets(f, markets, taker, id)
    requires 0 < fill <= f.orders[id].remaining && fill <= req.quantity
    requires req.kind.Market? ==> f.orders[id].price * fill <= f.accounts[req.player]
    requires Total(f.accounts) + Prepaid(req) * fill <= INT64_MAX
    ensures BuyFill(f, req, taker, id, fill).Ok?
  {
    SoundHasBank(f, markets, taker);
    hide Sum; hide Total;
    var ask := f.orders[id];
    assert RowOk(ask) && ask.owner in f.accounts;
    hide Sound; hide BankOk;
    SmallerProduct(ask.price, fill, ask.original);
    BuyerGainFits(req, ask.price, fill);
    var gain := BuyerGain(req, ask.price, fill);
    SmallerProduct(ask.price, 0, fill);
    BuyPayFits(f, req, taker, ask, fill);
    BuyPayMoves(f, req, taker, ask, fill);
    var paid := BuyPay(f, req, taker, ask, fill).value;
    BuySettleFits(paid, req, taker, id, fill);
  }

  lemma BuyPayFits(f: Floor, req: Request, taker: Id, ask: Order, fill: int)
    requires BankOk(f) && req.player in f.accounts && 0 < fill && 0 < ask.price
    requires req.kind.Limit? ==> 0 <= req.price - ask.price && 0 <= BuyerGain(req, ask.price, fill) <= INT64_MAX
    requires req.kind.Market? ==> ask.price * fill <= f.accounts[req.player]
    requires Total(f.accounts) + BuyerGain(req, ask.price, fill) <= INT64_MAX
    ensures BuyPay(f, req, taker, ask, fill).Ok?
  {
    hide Sum; hide Total;
    BalanceWithinTotal(f, req.player);
    if req.kind.Market? {
      SmallerProduct(ask.price, 0, fill);
      assert f.accounts[req.player] <= INT64_MAX;
      DebitMoves(f, req.player, ask.price * fill, MarketBuyTrade, Some(taker));
    } else {
      CreditFits(f, req.player, BuyerGain(req, ask.price, fill), PriceImprovementRefund, Some(taker));
    }
  }

  lemma BuySettleFits(f: Floor, req: Request, taker: Id, id: Id, fill: int)
    requires BankOk(f) && id < |f.orders| && 0 < fill
    requires var m := f.orders[id]; m.owner in f.accounts && 0 < m.price && m.price * fill <= INT64_MAX && m.side.Sell?
    requires Total(f.accounts) + f.orders[id].price * fill <= INT64_MAX
    ensures BuySettle(f, req, taker, id, fill).Ok?
  {
    hide Sum; hide Total;
    var ask := f.orders[id];
    var reduced := f.(orders := f.orders[id := AfterFill(ask, fill)]);
    assert BankOk(reduced);
    SmallerProduct(ask.price, 0, fill);
    CreditFits(reduced, ask.owner, ask.price * fill, TradeProceeds, Some(id));
  }

  /** The buy loop, while what is prepaid for the rest fits next to all balances. */
  lemma {:induction false} BuyLoopFits(f: Floor, markets: seq<Venue>, req: Request, taker: Id, asks: seq<Id>, c: Cursor)
    requires Running(f, markets, req, taker, asks, c) && req.side.Buy? && ValidMakers(f, asks)
    requires 0 <= c.remaining && req.player in f.accounts
    requires Total(f.accounts) + Prepaid(req) * c.remaining <= INT64_MAX
    ensures BuyLoop(f, req, taker, asks, c).Ok?
    decreases |asks|
  {
    hide Running; hide Progress; hide FillShape; hide Sound; hide Exhausted; hide BuyFill; hide Sum; hide Total;
    hide Traded; hide BankOk;
    if asks != [] && c.remaining != 0 {
      NextMaker(f, markets, req, taker, asks, c);
      RunningRange(f, markets, req, taker, asks, c);
      var ask := f.orders[asks[0]];
      var fill := BuyQuantity(f, req, ask, c.remaining);
      if fill > 0 {
        BuyStep(f, markets, req, taker, asks, c);
        PrepaidIsNatural(req, fill, c.remaining);
        QuotientBound(f.accounts[req.player], ask.price, fill);
        BuyFillFits(f, markets, req, taker, asks[0], fill);
        BuyFillMoves(f, markets, req, taker, asks[0], fill);
        var g, d := BuyFill(f, req, taker, asks[0], fill).value, Advance(c, ask.price, fill);
        MakersAreValid(g, markets, req, taker, asks[1..], d);
        RunningRange(g, markets, req, taker, asks[1..], d);
        BuyLoopFits(g, markets, req, taker, asks[1..], d);
      }
    }
  }

  lemma RunningRange(f: Floor, markets: seq<Venue>, req: Request, taker: Id, ids: seq<Id>, c: Cursor)
    requires Running(f, markets, req, taker, ids, c)
    ensures 0 <= c.remaining <= req.quantity && req.player in f.accounts && TakerRow(f, req, taker)
  {
    hide Sound;
  }

  lemma PrepaidIsNatural(req: Request, fill: int, remaining: int)
    requires 0 <= fill <= remaining && (req.kind.Limit? ==> 0 < req.price)
    ensures 0 <= Prepaid(req) * fill <= Prepaid(req) * remaining
    ensures Prepaid(req) * remaining == Prepaid(req) * fill + Prepaid(req) * (remaining - fill)
  {
    if req.side.Buy? && req.kind.Limit? { SmallerProduct(req.price, fill, remaining); }
  }

  lemma PlaceBuyFits(f: Floor, markets: seq<Venue>, req: Request)
    requires Sound(f, markets, -1) && ValidOrder(req) && req.side.Buy? && PricedRows(f) && Money(f) <= INT64_MAX
    ensures PlaceBuy(f, markets, req) != Err(BalanceOverflow)
  {
    hide Sum; hide Total; hide Candidates; hide Sound; hide BankOk; hide PricedRows; hide SameHoldings; hide Makers;
    hide Running; hide ValidMakers; hide TakerRow; hide NewOrder; hide BuyLoop; hide OpenBuy; hide Money; hide Executed;
    PlaceBuyExecutes(f, markets, req);
    SoundHasBank(f, markets, -1);
    TotalWithinMoney(f, markets);
    OpenBuyPays(f, req);
    if req.market < |markets| && markets[req.market].active && OpenBuy(f, req).Ok? {
      var g, c := OpenBuy(f, req).value, Cursor(req.quantity, 0, 0);
      var asks := Candidates(g.orders, markets, MakerQuery(req, markets[req.market].book));
      OpenBuyReady(f, g, markets, req);
      OpenedRuns(f, g, markets, req, |f.orders|);
      BuyLoopFits(g, markets, req, |f.orders|, asks, c);
      BuyLoopMatches(g, markets, req, |f.orders|, asks, c);
      var (h, d) := BuyLoop(g, req, |f.orders|, asks, c).value;
      BuyFinishes(f, g, h, d, markets, req);
      CloseBuyFits(h, req, |f.orders|, d);
    }
  }

  // ----- sells -----

  lemma {:induction false} SellLoopFits(f: Floor, markets: seq<Venue>, req: Request, taker: Id, bids: seq<Id>,
                                        c: Cursor)
    requires Running(f, markets, req, taker, bids, c) && req.side.Sell? && ValidMakers(f, bids)
    requires 0 <= c.remaining && taker < |f.orders| && 0 <= f.orders[taker].reserved && Money(f) <= INT64_MAX
    ensures SellLoop(f, req, taker, bids, c).Ok?
    decreases |bids|
  {
    hide Running; hide FillShape; hide Sound; hide Exhausted; hide SellFill; hide Sum; hide Total; hide Traded;
    hide BankOk; hide Money; hide Position; hide Surplus; hide Undelivered; hide Unaccounted;
    if bids != [] && c.remaining != 0 {
      NextMaker(f, markets, req, taker, bids, c);
      RunningRange(f, markets, req, taker, bids, c);
      var bid := f.orders[bids[0]];
      var fill := Min(c.remaining, bid.remaining);
      SellFillFits(f, markets, req, taker, bids[0], fill);
      SellStep(f, markets, req, taker, bids, c);
      var g, d := SellFill(f, req, taker, bids[0], fill).value, Advance(c, bid.price, fill);
      RunningRange(g, markets, req, taker, bids[1..], d);
      MakersAreValid(g, markets, req, taker, bids[1..], d);
      SellLoopFits(g, markets, req, taker, bids[1..], d);
    }
  }

  lemma SellFillFits(f: Floor, markets: seq<Venue>, req: Request, taker: Id, id: Id, fill: int)
    requires Sound(f, markets, taker) && TakerRow(f, req, taker) && req.side.Sell? && Meets(f, markets, taker, id)
    requires 0 <= f.orders[taker].reserved && Money(f) <= INT64_MAX
    requires 0 < fill <= f.orders[id].remaining
    ensures SellFill(f, req, taker, id, fill).Ok?
  {
    SoundHasBank(f, markets, taker);
    hide Sum; hide Total; hide Money;
    var bid := f.orders[id];
    assert RowOk(bid) && req.player in f.accounts;
    hide Sound; hide BankOk;
    BidCoversFill(bid, fill);
    ReservesAreNatural(f, markets, taker);
    ReserveWithinMoney(f, id);
    SmallerProduct(bid.price, 0, fill);
    var reduced := f.(orders := f.orders[id := AfterFill(bid, fill)]);
    SameBank(f, reduced);
    CreditFits(reduced, req.player, bid.price * fill, TradeProceeds, Some(taker));
  }

  lemma SameBank(f: Floor, g: Floor)
    requires BankOk(f) && g.accounts == f.accounts && g.ledger == f.ledger
    ensures BankOk(g)
  {
  }

  lemma PlaceSellFits(f: Floor, markets: seq<Venue>, req: Request)
    requires Sound(f, markets, -1) && ValidOrder(req) && req.side.Sell? && PricedRows(f) && Money(f) <= INT64_MAX
    ensures PlaceSell(f, markets, req) != Err(BalanceOverflow)
  {
    hide Sum; hide Total; hide Candidates; hide Sound; hide BankOk; hide PricedRows; hide Makers; hide Running;
    hide ValidMakers; hide TakerRow; hide SellLoop; hide Money; hide Position; hide Surplus; hide Undelivered;
    hide Unaccounted;
    if req.market < |markets| && markets[req.market].active && req.player in f.accounts {
      var g, c := OpenSell(f, req).value, Cursor(req.quantity, 0, 0);
      var bids := Candidates(g.orders, markets, MakerQuery(req, markets[req.market].book));
      OpenSellReady(f, g, markets, req);
      OpenedRuns(f, g, markets, req, |f.orders|);
      SellLoopFits(g, markets, req, |f.orders|, bids, c);
    }
  }

  // ----- releases -----

  lemma ReleaseFits(f: Floor, markets: seq<Venue>, id: Id, refund: LedgerReason, back: DeliveryReason)
    requires Sound(f, markets, -1) && id < |f.orders| && Resting(f.orders[id]) && back != TradeBuy
             && Money(f) <= INT64_MAX
    ensures Release(f, id, refund, back).Ok?
  {
    hide Sum; hide Total; hide Sound; hide Money; hide BankOk; hide Release; hide Released; hide SameHoldings;
    ReleaseWorks(f, markets, id, refund, back);
    SoundHasBank(f, markets, -1);
    OwnerHasBalance(f, markets, id);
    BalanceWithinTotal(f, f.orders[id].owner);
    ReservesAreNatural(f, markets, -1);
    ReserveWithinMoney(f, id);
  }

  lemma OwnerHasBalance(f: Floor, markets: seq<Venue>, id: Id)
    requires Sound(f, markets, -1) && id < |f.orders|
    ensures f.orders[id].owner in f.accounts
  {
  }

  lemma {:induction false} ReleaseAllFits(f: Floor, markets: seq<Venue>, ids: seq<Id>)
    requires Sound(f, markets, -1) && Money(f) <= INT64_MAX
    requires forall k :: 0 <= k < |ids| ==> ids[k] < |f.orders| && Resting(f.orders[ids[k]])
    requires forall j, k :: 0 <= j < k < |ids| ==> ids[j] < ids[k]
    ensures ReleaseAll(f, ids).Ok?
    decreases |ids|
  {
    hide Sum; hide Total; hide Sound; hide Money; hide Release; hide Position; hide Surplus; hide Undelivered;
    hide Unaccounted;
    if ids != [] {
      ReleaseFits(f, markets, ids[0], MarketCloseRefund, MarketClosed);
      ReleaseWorks(f, markets, ids[0], MarketCloseRefund, MarketClosed);
      var g, rest := Release(f, ids[0], MarketCloseRefund, MarketClosed).value, ids[1..];
      forall k | 0 <= k < |rest|
        ensures rest[k] < |g.orders| && Resting(g.orders[rest[k]])
      {
        assert rest[k] == ids[k + 1];
      }
      ReleaseAllFits(g, markets, rest);
    }
  }

  // ----- whole operations -----

  lemma GoodMarketRow(t: Tables, e: Id, sha: string -> int)
    requires Good(t, sha) && e < |t.escrows|
    ensures t.escrows[e].market < |t.markets| && t.escrows[e].owner in t.floor.accounts
    ensures ValidOrder(EscrowRequest(t.escrows[e]))
  {
    hide Good;
    EscrowTerms(t, e, sha);
  }

  /** The exchange takes an escrow's sell: its market is active and the owner's balance can hold what the bids pay. */
  predicate Accepts(t: Tables, row: Escrow)
  {
    && row.market < |t.markets| && row.owner in t.floor.accounts && t.markets[row.market].active
    && t.floor.accounts[row.owner] + SellValue(t.floor, t.markets, EscrowRequest(row)) <= INT64_MAX
  }

  /**
   A TAGGED escrow becomes an order exactly when the exchange takes its sell. It is refused for an
   inactive market, or else because the owner's balance would overflow, which no player's can while
   all money inside fits 64 bits.
   */
  lemma TaggedEscrowRefused(t: Tables, e: Id, sha: string -> int)
    requires Good(t, sha) && Priced(t) && e < |t.escrows| && t.escrows[e].status.EscrowTagged?
    ensures t.escrows[e].market < |t.markets| && t.escrows[e].owner in t.floor.accounts
    ensures ExecuteEscrow(t, e).Ok? <==> Accepts(t, t.escrows[e])
    ensures ExecuteEscrow(t, e) == Err(MarketInactive) <==> !t.markets[t.escrows[e].market].active
    ensures match ExecuteEscrow(t, e)
            case Err(x) => x == MarketInactive || (x == BalanceOverflow && INT64_MAX < Money(t.floor))
            case Ok(_) => true
  {
    hide Good; hide PlaceSell; hide Executed; hide PricedRows; hide AddDelivery; hide ExecuteEscrow; hide Sound;
    hide Money; hide SellValue;
    GoodMarketRow(t, e, sha);
    GoodIsSound(t, sha);
    ExecuteEscrowShape(t, e);
    var req := EscrowRequest(t.escrows[e]);
    PlaceSellExecutes(t.floor, t.markets, req);
    if Money(t.floor) <= INT64_MAX { PlaceSellFits(t.floor, t.markets, req); }
    if t.markets[req.market].active {
      SellIsPaid(t.floor, t.markets, req);
    } else {
      InactiveRefuses(t.floor, t.markets, req);
    }
  }

  /** While all money inside fits 64 bits, the exchange takes every sell on an active market. */
  lemma SolventAccepts(t: Tables, e: Id, sha: string -> int)
    requires Good(t, sha) && Priced(t) && e < |t.escrows| && Money(t.floor) <= INT64_MAX
    ensures t.escrows[e].market < |t.markets|
    ensures Accepts(t, t.escrows[e]) <==> t.markets[t.escrows[e].market].active
  {
    hide Good; hide PlaceSell; hide PricedRows; hide Sound; hide Money; hide SellValue;
    GoodMarketRow(t, e, sha);
    GoodIsSound(t, sha);
    var req := EscrowRequest(t.escrows[e]);
    PlaceSellFits(t.floor, t.markets, req);
    if t.markets[req.market].active { SellIsPaid(t.floor, t.markets, req); }
  }

  lemma InactiveRefuses(f: Floor, markets: seq<Venue>, req: Request)
    requires PricedRows(f) && (req.kind.Limit? ==> req.price > 0) && req.market < |markets|
             && !markets[req.market].active
    ensures PlaceSell(f, markets, req) == Err(MarketInactive) && PlaceBuy(f, markets, req) == Err(MarketInactive)
  {
  }

  lemma PlaceRefuses(f: Floor, markets: seq<Venue>, req: Request)
    requires BankOk(f) && ValidOrder(req) && PricedRows(f)
    requires req.market >= |markets| || !markets[req.market].active || req.player !in f.accounts
             || f.accounts[req.player] < Prepaid(req) * req.quantity
    ensures if req.side.Buy? then PlaceBuy(f, markets, req).Err? else PlaceSell(f, markets, req).Err?
  {
    hide Sum; hide Total; hide BankOk; hide Candidates; hide PricedRows; hide OpenBuy;
    if req.side.Buy? {
      OpenBuyPays(f, req);
      if OpenBuy(f, req).Ok? { InRange(OpenBuy(f, req).value, req.player); }
    } else if req.player in f.accounts {
      SellPrepaysNothing(f, req);
    }
  }

  lemma SellPrepaysNothing(f: Floor, req: Request)
    requires req.side.Sell? && BankOk(f) && req.player in f.accounts
    ensures Prepaid(req) * req.quantity == 0 <= f.accounts[req.player]
  {
  }

  /** While the money inside fits 64 bits, an order is refused exactly for what its player could check beforehand. */
  lemma SolventPlace(t: Tables, req: Request, sha: string -> int)
    requires Good(t, sha) && ValidOrder(req) && PricedRows(t.floor) && Money(t.floor) <= INT64_MAX
    ensures Place(t, req).Err? <==>
              || req.market >= |t.markets| || !t.markets[req.market].active || req.player !in t.floor.accounts
              || t.floor.accounts[req.player] < Prepaid(req) * req.quantity
  {
    hide Good; hide PlaceBuy; hide PlaceSell; hide Executed; hide Sound; hide PricedRows; hide Money; hide BankOk;
    GoodIsSound(t, sha);
    SoundHasBank(t.floor, t.markets, -1);
    if req.side.Buy? {
      PlaceBuyExecutes(t.floor, t.markets, req);
      PlaceBuyFits(t.floor, t.markets, req);
    } else {
      PlaceSellExecutes(t.floor, t.markets, req);
      PlaceSellFits(t.floor, t.markets, req);
    }
    if req.market >= |t.markets| || !t.markets[req.market].active || req.player !in t.floor.accounts
       || t.floor.accounts[req.player] < Prepaid(req) * req.quantity {
      PlaceRefuses(t.floor, t.markets, req);
    }
  }

  /** A cancellation is then refused exactly for a missing order, another owner, or an order that does not rest. */
  lemma SolventCancel(t: Tables, id: Id, p: Player, administrator: bool, sha: string -> int)
    requires Good(t, sha) && Money(t.floor) <= INT64_MAX
    ensures CancelOrder(t, id, p, administrator).Err? <==>
              || id >= |t.floor.orders| || (!administrator && t.floor.orders[id].owner != p)
              || !Resting(t.floor.orders[id])
  {
    hide Good; hide Release; hide Sound; hide Money;
    GoodIsSound(t, sha);
    if id < |t.floor.orders| && Resting(t.floor.orders[id]) {
      ReleaseFits(t.floor, t.markets, id, OrderCancelRefund, OrderCanceled);
    }
  }

  /** And a retirement only for a missing market. */
  lemma SolventRetire(t: Tables, m: Id, sha: string -> int)
    requires Good(t, sha) && Money(t.floor) <= INT64_MAX
    ensures Retire(t, m).Err? <==> m >= |t.markets|
  {
    hide Good; hide ReleaseAll; hide RestingOf; hide Sound; hide Money;
    GoodIsSound(t, sha);
    GoodMarkets(t, sha);
    hide ShelvesOk; hide BooksOk;
    ReleaseAllFits(t.floor, t.markets, RestingOf(t.floor.orders, m, |t.floor.orders|));
  }

  /** An escrow becomes or reports its order unless it is missing, not tagged, canceled, or its market is inactive. */
  lemma SolventEscrow(t: Tables, e: Id, sha: string -> int)
    requires Good(t, sha) && Priced(t) && Money(t.floor) <= INT64_MAX
    ensures ExecuteEscrow(t, e).Err? <==>
              || e >= |t.escrows| || t.escrows[e].status.EscrowPrepared? || t.escrows[e].status.EscrowCanceled?
              || (t.escrows[e].status.EscrowTagged?
                  && (t.escrows[e].market >= |t.markets| || !t.markets[t.escrows[e].market].active))
  {
    hide Good; hide PlaceSell; hide PricedRows; hide Sum; hide Sound; hide Money;
    if e < |t.escrows| {
      EscrowTerms(t, e, sha);
      if t.escrows[e].status.EscrowTagged? { TaggedEscrowRefused(t, e, sha); }
    }
  }

  /** A frame purchase does not overflow either. */
  lemma SolventPurchase(t: Tables, id: Id, buyer: Player, expected: int, sha: string -> int)
    requires Good(t, sha) && Money(t.floor) <= INT64_MAX
    ensures Purchase(t, id, buyer, expected) != Err(BalanceOverflow)
  {
    hide Good; hide Sum; hide Total; hide Sound; hide Money; hide BankOk;
    if id < |t.listings| && buyer in t.floor.accounts && t.listings[id].seller in t.floor.accounts {
      var price := t.listings[id].price;
      ListingPriced(t, id, sha);
      GoodIsSound(t, sha);
      SoundHasBank(t.floor, t.markets, -1);
      TotalWithinMoney(t.floor, t.markets);
      DebitMoves(t.floor, buyer, price, FramePurchase, Some(id));
      var paid := Debit(t.floor, buyer, price, FramePurchase, Some(id));
      if paid.Ok? { CreditFits(paid.value, t.listings[id].seller, price, FrameSale, Some(id)); }
    }
  }
}
