/** Trading only appends to the ledger and to the deliveries, and only entries of its own kinds. */
module Growth {
  import opened Sums
  import opened Domain
  import opened Matching

  predicate IsTrading(r: LedgerReason)
  {
    r in {BuyOrderReserve, MarketBuyTrade, PriceImprovementRefund, TradeProceeds, OrderCancelRefund, MarketCloseRefund}
  }

  /** The ledger gained trading entries only, the deliveries unclaimed rows only, and no trade was lost. */
  ghost predicate Grown(f: Floor, g: Floor)
  {
    && f.ledger <= g.ledger && f.deliveries <= g.deliveries && f.trades <= g.trades
    && (forall k :: |f.ledger| <= k < |g.ledger| ==> IsTrading(g.ledger[k].reason))
    && (forall k :: |f.deliveries| <= k < |g.deliveries| ==>
          g.deliveries[k].claimed == 0 && g.deliveries[k].reserved == 0 && g.deliveries[k].reason != EscrowExcess)
  }

  lemma GrownTrans(f: Floor, g: Floor, h: Floor)
    requires Grown(f, g) && Grown(g, h)
    ensures Grown(f, h)
  {
  }

  lemma BuyFillGrows(f: Floor, req: Request, taker: Id, id: Id, fill: int)
    requires id < |f.orders|
    ensures var r := BuyFill(f, req, taker, id, fill); r.Ok? ==> Grown(f, r.value)
  {
  }

  lemma SellFillGrows(f: Floor, req: Request, taker: Id, id: Id, fill: int)
    requires id < |f.orders|
    ensures var r := SellFill(f, req, taker, id, fill); r.Ok? ==> Grown(f, r.value)
  {
  }

  lemma {:induction false} BuyLoopGrows(f: Floor, req: Request, taker: Id, asks: seq<Id>, c: Cursor)
    requires ValidMakers(f, asks) && req.player in f.accounts
    ensures var r := BuyLoop(f, req, taker, asks, c); r.Ok? ==> Grown(f, r.value.0)
    decreases |asks|
  {
    hide BuyFill; hide Grown;
    GrownRefl(f);
    if asks != [] && c.remaining != 0 {
      var ask := f.orders[asks[0]];
      var fill := BuyQuantity(f, req, ask, c.remaining);
      BuyFillGrows(f, req, taker, asks[0], fill);
      var r := BuyFill(f, req, taker, asks[0], fill);
      if !(req.kind.Market? && fill <= 0) && r.Ok? {
        var d := Cursor(c.remaining - fill, c.filled + fill, c.gross + ask.price * fill);
        BuyLoopGrows(r.value, req, taker, asks[1..], d);
        var s := BuyLoop(r.value, req, taker, asks[1..], d);
        if s.Ok? { GrownTrans(f, r.value, s.value.0); }
      }
    }
  }

  lemma {:induction false} SellLoopGrows(f: Floor, req: Request, taker: Id, bids: seq<Id>, c: Cursor)
    requires ValidMakers(f, bids)
    ensures var r := SellLoop(f, req, taker, bids, c); r.Ok? ==> Grown(f, r.value.0)
    decreases |bids|
  {
    hide SellFill; hide Grown;
    GrownRefl(f);
    if bids != [] && c.remaining != 0 {
      var bid := f.orders[bids[0]];
      var fill := Min(c.remaining, bid.remaining);
      SellFillGrows(f, req, taker, bids[0], fill);
      var r := SellFill(f, req, taker, bids[0], fill);
      if r.Ok? {
        var d := Cursor(c.remaining - fill, c.filled + fill, c.gross + bid.price * fill);
        SellLoopGrows(r.value, req, taker, bids[1..], d);
        var s := SellLoop(r.value, req, taker, bids[1..], d);
        if s.Ok? { GrownTrans(f, r.value, s.value.0); }
      }
    }
  }

  lemma GrownRefl(f: Floor)
    ensures Grown(f, f)
  {
  }

  lemma OpenGrows(f: Floor, req: Request)
    ensures var r := OpenBuy(f, req); r.Ok? ==> Grown(f, r.value)
    ensures var r := OpenSell(f, req); r.Ok? ==> Grown(f, r.value)
  {
  }

  lemma CloseGrows(f: Floor, req: Request, taker: Id, c: Cursor, reserved: int)
    requires taker < |f.orders|
    ensures Grown(f, CloseTaker(f, req, taker, c, reserved))
  {
  }

  lemma PlaceBuyGrows(f: Floor, markets: seq<Venue>, req: Request)
    requires PricedRows(f) && (req.kind.Limit? ==> req.price > 0)
    ensures var r := PlaceBuy(f, markets, req); r.Ok? ==> Grown(f, r.value.0)
  {
    hide Grown; hide BuyLoop; hide CloseTaker; hide Candidates;
    var r := PlaceBuy(f, markets, req);
    if r.Ok? {
      OpenGrows(f, req);
      var g := OpenBuy(f, req).value;
      var asks := Candidates(g.orders, markets, MakerQuery(req, ActiveBook(markets, req.market).value));
      var c := Cursor(req.quantity, 0, 0);
      BuyLoopGrows(g, req, |f.orders|, asks, c);
      var (h, d) := BuyLoop(g, req, |f.orders|, asks, c).value;
      var reserved := if req.kind.Limit? then Product(req.price, d.remaining).value else 0;
      CloseGrows(h, req, |f.orders|, d, reserved);
      GrownTrans(f, g, h);
      GrownTrans(f, h, r.value.0);
    }
  }

  lemma PlaceSellGrows(f: Floor, markets: seq<Venue>, req: Request)
    requires PricedRows(f) && (req.kind.Limit? ==> req.price > 0)
    ensures var r := PlaceSell(f, markets, req); r.Ok? ==> Grown(f, r.value.0)
  {
    hide Grown; hide SellLoop; hide CloseTaker; hide Candidates; hide AddDelivery;
    var r := PlaceSell(f, markets, req);
    if r.Ok? {
      OpenGrows(f, req);
      var g := OpenSell(f, req).value;
      var bids := Candidates(g.orders, markets, MakerQuery(req, ActiveBook(markets, req.market).value));
      var c := Cursor(req.quantity, 0, 0);
      SellLoopGrows(g, req, |f.orders|, bids, c);
      var (h, d) := SellLoop(g, req, |f.orders|, bids, c).value;
      var back := if req.kind.Market? then AddDelivery(h, req.player, req.market, d.remaining, MarketRemainder) else h;
      GrownRefl(h);
      AddDeliveryGrows(h, req.player, req.market, d.remaining, MarketRemainder);
      CloseGrows(back, req, |f.orders|, d, back.orders[|f.orders|].reserved);
      GrownTrans(f, g, h);
      GrownTrans(f, h, back);
      GrownTrans(f, back, r.value.0);
    }
  }

  lemma AddDeliveryGrows(f: Floor, p: Player, market: Id, quantity: int, reason: DeliveryReason)
    requires reason != EscrowExcess
    ensures Grown(f, AddDelivery(f, p, market, quantity, reason))
    ensures AddDelivery(f, p, market, quantity, reason).orders == f.orders
  {
  }

  lemma ReleaseGrows(f: Floor, id: Id, refund: LedgerReason, back: DeliveryReason)
    requires id < |f.orders| && IsTrading(refund) && back != EscrowExcess
    ensures var r := Release(f, id, refund, back); r.Ok? ==> Grown(f, r.value)
  {
  }

  lemma {:induction false} ReleaseAllGrows(f: Floor, ids: seq<Id>)
    requires forall k :: 0 <= k < |ids| ==> ids[k] < |f.orders|
    ensures var r := ReleaseAll(f, ids); r.Ok? ==> Grown(f, r.value)
    decreases |ids|
  {
    hide Grown; hide Release;
    GrownRefl(f);
    if ids != [] {
      ReleaseGrows(f, ids[0], MarketCloseRefund, MarketClosed);
      var r := Release(f, ids[0], MarketCloseRefund, MarketClosed);
      if r.Ok? {
        ReleaseAllGrows(r.value, ids[1..]);
        var s := ReleaseAll(r.value, ids[1..]);
        if s.Ok? { GrownTrans(f, r.value, s.value); }
      }
    }
  }

  /** A weight that ignores trading entries sees no difference. */
  lemma {:induction false} SumOverGrowth(before: seq<Entry>, after: seq<Entry>, w: Entry -> int)
    requires before <= after
    requires forall k :: |before| <= k < |after| ==> w(after[k]) == 0
    ensures Sum(after, w) == Sum(before, w)
    decreases |after|
  {
    if |before| < |after| {
      SumOverGrowth(before, after[..|after| - 1], w);
    } else {
      assert before == after;
    }
  }
}
