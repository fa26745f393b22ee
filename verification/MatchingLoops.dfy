/**
 The two matching loops keep the trading invariants, move money and items only as their fills
 say, and abort for no reason but a balance leaving the 64-bit range.
 */
module MatchingLoops {
  import opened Sums
  import opened Domain
  import opened Matching
  import opened Settlement

  /** The row inserted for `req` is still as it was inserted. */
  predicate TakerRow(f: Floor, req: Request, taker: Id)
  {
    && taker < |f.orders| && req.player in f.accounts
    && var o := f.orders[taker];
    && o.owner == req.player && o.market == req.market && o.side == req.side && o.kind == req.kind
    && (req.kind.Limit? ==> o.price == req.price && 0 < req.price && req.price * req.quantity <= INT64_MAX)
  }

  /** Cents a buy set aside per unit before matching. */
  function Prepaid(req: Request): int
  {
    if req.side.Buy? && req.kind.Limit? then req.price else 0
  }

  /** Same order, possibly with less left to trade. */
  predicate Weaker(o: Order, n: Order)
  {
    && n == o.(remaining := n.remaining, reserved := n.reserved, status := n.status)
    && n.remaining <= o.remaining && (Resting(n) ==> Resting(o))
  }

  /** What matching did between two points of one loop. */
  ghost predicate Progress(f: Floor, c: Cursor, g: Floor, d: Cursor, markets: seq<Venue>, req: Request, taker: Id)
  {
    && taker < |f.orders| == |g.orders| && g.orders[taker] == f.orders[taker]
    && g.accounts.Keys == f.accounts.Keys && req.player in f.accounts
    && c.remaining + c.filled == d.remaining + d.filled && c.filled <= d.filled && 0 <= d.remaining
    && Traded(g, taker) - Traded(f, taker) == d.filled - c.filled
    && Sum(g.trades, ValueOf(req.side, taker)) - Sum(f.trades, ValueOf(req.side, taker)) == d.gross - c.gross
    && Money(g) - Money(f) == Prepaid(req) * (d.filled - c.filled)
    && g.accounts[req.player] - f.accounts[req.player]
       == (if req.side.Sell? then d.gross - c.gross else Prepaid(req) * (d.filled - c.filled) - (d.gross - c.gross))
    && (forall p :: Position(g, p) == Position(f, p)
                      + (if p == req.player then Prepaid(req) * (d.filled - c.filled) else 0))
    && (forall b :: Surplus(g, markets, b) == Surplus(f, markets, b)
                      + (if req.side.Sell? && InBook(markets, req.market, b) then d.filled - c.filled else 0))
    && (forall p :: Undelivered(g, p) == Undelivered(f, p))
    && (forall p :: Unaccounted(g, p) == Unaccounted(f, p)
                      - (if req.side.Sell? && p == req.player then d.filled - c.filled else 0))
    && (forall i :: 0 <= i < |f.orders| ==> Weaker(f.orders[i], g.orders[i]))
  }

  lemma ProgressRefl(f: Floor, c: Cursor, markets: seq<Venue>, req: Request, taker: Id)
    requires taker < |f.orders| && req.player in f.accounts && 0 <= c.remaining
    ensures Progress(f, c, f, c, markets, req, taker)
  {
  }

  lemma ProgressTrans(f: Floor, c: Cursor, g: Floor, d: Cursor, h: Floor, e: Cursor,
                      markets: seq<Venue>, req: Request, taker: Id)
    requires Progress(f, c, g, d, markets, req, taker) && Progress(g, d, h, e, markets, req, taker)
    ensures Progress(f, c, h, e, markets, req, taker)
  {
    hide Sum; hide Total;
    var k := Prepaid(req);
    assert k * (d.filled - c.filled) + k * (e.filled - d.filled) == k * (e.filled - c.filled);
  }

  /** A fill leaves everybody's position alone, up to what the taker prepaid. */
  lemma FillMovesPositions(f: Floor, g: Floor, req: Request, taker: Id, maker: Id, q: int, markets: seq<Venue>)
    requires RowsOk(f, taker) && TakerRow(f, req, taker) && Meets(f, markets, taker, maker)
    requires FillShape(f, g, taker, maker, q) && 0 < q <= f.orders[maker].remaining
    requires var m := f.orders[maker];
             if req.side.Buy? then
               && g.accounts[req.player] == f.accounts[req.player] + Prepaid(req) * q - m.price * q
               && m.owner in f.accounts && g.accounts[m.owner] == f.accounts[m.owner] + m.price * q
               && forall p :: p in f.accounts && p != req.player && p != m.owner ==> g.accounts[p] == f.accounts[p]
             else
               g.accounts == f.accounts[req.player := f.accounts[req.player] + m.price * q]
    ensures forall p :: Position(g, p) == Position(f, p) + (if p == req.player then Prepaid(req) * q else 0)
    ensures Sum(g.orders, OpenReserve()) == Sum(f.orders, OpenReserve())
                                            - (if req.side.Sell? then f.orders[maker].price * q else 0)
  {
    var m := f.orders[maker];
    var t := FillTrade(f, taker, maker, q);
    var after := AfterFill(m, q);
    assert RowOk(m);
    assert m.price * (m.remaining - q) == m.price * m.remaining - m.price * q;
    SumUpdate(f.orders, maker, after, OpenReserve());
    forall p
      ensures Position(g, p) == Position(f, p) + (if p == req.player then Prepaid(req) * q else 0)
    {
      SumUpdate(f.orders, maker, after, ReserveOf(p));
      SumAppend(f.trades, t, NetSpent(p));
    }
  }

  lemma SmallerProduct(price: int, x: int, y: int)
    requires 0 <= price && 0 <= x <= y
    ensures 0 <= price * x <= price * y
  {
  }

  /** What the buyer's balance gains by a fill: minus the cost, or plus the price improvement. */
  function BuyerGain(req: Request, price: int, fill: int): int
  {
    if req.kind.Market? then -(price * fill) else (req.price - price) * fill
  }

  lemma BuyerGainFits(req: Request, price: int, fill: int)
    requires req.side.Buy? && 0 < fill <= req.quantity && 0 < price
    requires req.kind.Limit? ==> price <= req.price && req.price * req.quantity <= INT64_MAX
    ensures BuyerGain(req, price, fill) == Prepaid(req) * fill - price * fill
    ensures req.kind.Limit? ==> 0 <= BuyerGain(req, price, fill) <= INT64_MAX
  {
    if req.kind.Limit? {
      SmallerProduct(req.price, fill, req.quantity);
      SmallerProduct(req.price - price, 0, fill);
      SmallerProduct(price, 0, fill);
    }
  }

  /** The buyer's side of a fill. */
  lemma BuyPayMoves(f: Floor, req: Request, taker: Id, ask: Order, fill: int)
    requires BankOk(f) && req.player in f.accounts && 0 < fill && 0 < ask.price
    requires req.kind.Limit? ==> 0 <= req.price - ask.price && 0 <= BuyerGain(req, ask.price, fill) <= INT64_MAX
    requires req.kind.Market? ==> ask.price * fill <= f.accounts[req.player]
    ensures match BuyPay(f, req, taker, ask, fill)
            case Err(e) => e == BalanceOverflow
            case Ok(g) =>
              && BankOk(g) && g == f.(accounts := g.accounts, ledger := g.ledger)
              && Total(g.accounts) == Total(f.accounts) + BuyerGain(req, ask.price, fill)
              && g.accounts == f.accounts[req.player := f.accounts[req.player] + BuyerGain(req, ask.price, fill)]
  {
    hide Sum; hide Total;
    var gain := BuyerGain(req, ask.price, fill);
    if req.kind.Market? {
      SmallerProduct(ask.price, 0, fill);
      assert f.accounts[req.player] <= INT64_MAX;
      DebitMoves(f, req.player, -gain, MarketBuyTrade, Some(taker));
    } else {
      CreditMoves(f, req.player, gain, PriceImprovementRefund, Some(taker));
    }
  }

  /** The seller's side of a fill. */
  lemma BuySettleMoves(f: Floor, req: Request, taker: Id, id: Id, fill: int)
    requires BankOk(f) && TakerRow(f, req, taker) && req.side.Buy? && id < |f.orders| && 0 < fill
    requires var m := f.orders[id];
             && m.owner in f.accounts && 0 < m.price && m.price * fill <= INT64_MAX && m.side.Sell?
    ensures match BuySettle(f, req, taker, id, fill)
            case Err(e) => e == BalanceOverflow
            case Ok(g) =>
              && FillShape(f, g, taker, id, fill) && BankOk(g)
              && Total(g.accounts) == Total(f.accounts) + f.orders[id].price * fill
              && g.accounts == f.accounts[f.orders[id].owner :=
                                 f.accounts[f.orders[id].owner] + f.orders[id].price * fill]
  {
    hide Sum; hide Total;
    var ask := f.orders[id];
    var reduced := f.(orders := f.orders[id := AfterFill(ask, fill)]);
    assert BankOk(reduced);
    CreditMoves(reduced, ask.owner, ask.price * fill, TradeProceeds, Some(id));
  }

  /** A buy fill: the shape of the new rows, and who paid and received what. */
  lemma BuyFillMoves(f: Floor, markets: seq<Venue>, req: Request, taker: Id, id: Id, fill: int)
    requires Sound(f, markets, taker) && TakerRow(f, req, taker) && req.side.Buy? && Meets(f, markets, taker, id)
    requires 0 < fill <= f.orders[id].remaining && fill <= req.quantity
    requires req.kind.Market? ==> f.orders[id].price * fill <= f.accounts[req.player]
    ensures match BuyFill(f, req, taker, id, fill)
            case Err(e) => e == BalanceOverflow
            case Ok(g) =>
              && FillShape(f, g, taker, id, fill) && BankOk(g)
              && Total(g.accounts) == Total(f.accounts) + Prepaid(req) * fill
              && var m := f.orders[id];
              && g.accounts[req.player] == f.accounts[req.player] + Prepaid(req) * fill - m.price * fill
              && g.accounts[m.owner] == f.accounts[m.owner] + m.price * fill
              && forall p :: p in f.accounts && p != req.player && p != m.owner ==> g.accounts[p] == f.accounts[p]
  {
    hide Sum; hide Total;
    var ask := f.orders[id];
    assert RowOk(ask);
    SmallerProduct(ask.price, fill, ask.original);
    BuyerGainFits(req, ask.price, fill);
    BuyPayMoves(f, req, taker, ask, fill);
    var paid := BuyPay(f, req, taker, ask, fill);
    if paid.Ok? {
      BuySettleMoves(paid.value, req, taker, id, fill);
    }
  }

  /** A sell fill: the bid's own reserve pays the seller, so the reserve check never trips. */
  lemma SellFillMoves(f: Floor, req: Request, taker: Id, id: Id, fill: int)
    requires BankOk(f) && TakerRow(f, req, taker) && req.side.Sell?
    requires id < |f.orders| && f.orders[id].side.Buy? && 0 < fill && 0 < f.orders[id].price
    requires f.orders[id].price * fill <= INT64_MAX && f.orders[id].price * fill <= f.orders[id].reserved
    ensures match SellFill(f, req, taker, id, fill)
            case Err(e) => e == BalanceOverflow
            case Ok(g) =>
              && FillShape(f, g, taker, id, fill) && BankOk(g)
              && Total(g.accounts) == Total(f.accounts) + f.orders[id].price * fill
              && g.accounts == f.accounts[req.player := f.accounts[req.player] + f.orders[id].price * fill]
  {
    hide Total; hide Sum;
    var bid := f.orders[id];
    var reduced := f.(orders := f.orders[id := AfterFill(bid, fill)]);
    assert BankOk(reduced);
    SmallerProduct(bid.price, 0, fill);
    CreditMoves(reduced, req.player, bid.price * fill, TradeProceeds, Some(taker));
  }

  lemma BidCoversFill(bid: Order, fill: int)
    requires RowOk(bid) && Resting(bid) && bid.side.Buy? && 0 < fill <= bid.remaining
    ensures 0 < bid.price && bid.price * fill <= INT64_MAX && bid.price * fill <= bid.reserved
  {
    SmallerProduct(bid.price, fill, bid.original);
    SmallerProduct(bid.price, fill, bid.remaining);
  }

  function Advance(c: Cursor, price: int, fill: int): Cursor
  {
    Cursor(c.remaining - fill, c.filled + fill, c.gross + price * fill)
  }

  /** How a fill moved the balances. */
  ghost predicate FillPaid(f: Floor, g: Floor, req: Request, maker: Id, q: int)
    requires maker < |f.orders| && g.accounts.Keys == f.accounts.Keys
    requires req.player in f.accounts && f.orders[maker].owner in f.accounts
  {
    var m := f.orders[maker];
    && BankOk(g)
    && Total(g.accounts) == Total(f.accounts) + (if req.side.Buy? then Prepaid(req) * q else m.price * q)
    && if req.side.Buy? then
         && g.accounts[req.player] == f.accounts[req.player] + Prepaid(req) * q - m.price * q
         && g.accounts[m.owner] == f.accounts[m.owner] + m.price * q
         && forall p :: p in f.accounts && p != req.player && p != m.owner ==> g.accounts[p] == f.accounts[p]
       else
         g.accounts == f.accounts[req.player := f.accounts[req.player] + m.price * q]
  }

  lemma FillKeepsSound(f: Floor, g: Floor, markets: seq<Venue>, req: Request, taker: Id, maker: Id, q: int)
    requires Sound(f, markets, taker) && TakerRow(f, req, taker) && Meets(f, markets, taker, maker)
    requires 0 < q <= f.orders[maker].remaining
    requires FillShape(f, g, taker, maker, q) && BankOk(g)
    ensures Sound(g, markets, taker) && TakerRow(g, req, taker)
  {
    assert RowOk(f.orders[maker]);
    FillKeepsRows(f, g, markets, taker, maker, q);
    FillKeepsTrades(f, g, markets, taker, maker, q);
    FillKeepsBook(f, g, markets, taker, maker, q);
  }

  /** One fill is one step of progress. */
  lemma FillProgress(f: Floor, g: Floor, c: Cursor, markets: seq<Venue>, req: Request, taker: Id, maker: Id, q: int)
    requires RowsOk(f, taker) && TakerRow(f, req, taker) && Meets(f, markets, taker, maker)
    requires f.orders[maker].owner in f.accounts
    requires 0 < q <= f.orders[maker].remaining && q <= c.remaining
    requires FillShape(f, g, taker, maker, q) && FillPaid(f, g, req, maker, q)
    ensures Progress(f, c, g, Advance(c, f.orders[maker].price, q), markets, req, taker)
  {
    hide Sum; hide Total; hide RowsOk; hide BankOk;
    FillCountsUnits(f, g, markets, taker, maker, q);
    FillMovesItems(f, g, markets, taker, maker, q);
    FillMovesPositions(f, g, req, taker, maker, q, markets);
    SumAppend(f.trades, FillTrade(f, taker, maker, q), ValueOf(req.side, taker));
  }

  /** The resting orders a loop still has to visit. */
  predicate Makers(f: Floor, markets: seq<Venue>, taker: Id, ids: seq<Id>)
  {
    && (forall k :: 0 <= k < |ids| ==> Meets(f, markets, taker, ids[k]))
    && (forall j, k :: 0 <= j < k < |ids| ==> ids[j] != ids[k])
  }

  lemma MakersAfterFill(f: Floor, g: Floor, markets: seq<Venue>, taker: Id, ids: seq<Id>, q: int)
    requires ids != [] && Makers(f, markets, taker, ids) && FillShape(f, g, taker, ids[0], q)
    ensures Makers(g, markets, taker, ids[1..])
  {
    var rest := ids[1..];
    forall k | 0 <= k < |rest|
      ensures Meets(g, markets, taker, rest[k])
    {
      assert rest[k] == ids[k + 1] && Meets(f, markets, taker, ids[k + 1]);
    }
  }

  /** A loop that may be entered. */
  ghost predicate Running(f: Floor, markets: seq<Venue>, req: Request, taker: Id, ids: seq<Id>, c: Cursor)
  {
    && Sound(f, markets, taker) && TakerRow(f, req, taker) && Makers(f, markets, taker, ids)
    && 0 <= c.remaining <= req.quantity
  }

  lemma MakersAreValid(f: Floor, markets: seq<Venue>, req: Request, taker: Id, ids: seq<Id>, c: Cursor)
    requires Running(f, markets, req, taker, ids, c)
    ensures ValidMakers(f, ids)
  {
    forall k | 0 <= k < |ids|
      ensures ids[k] < |f.orders| && f.orders[ids[k]].price > 0
    {
      assert Meets(f, markets, taker, ids[k]) && RowOk(f.orders[ids[k]]);
    }
  }

  /** When a limit order is left over, every resting order it could trade with is used up. */
  ghost predicate Exhausted(g: Floor, ids: seq<Id>)
  {
    forall k :: 0 <= k < |ids| ==> ids[k] < |g.orders| && !Resting(g.orders[ids[k]])
  }

  /** What a loop promises about its result. */
  ghost predicate Matched(f: Floor, c: Cursor, r: Result<(Floor, Cursor)>, markets: seq<Venue>, req: Request, taker: Id,
                          ids: seq<Id>)
  {
    match r
    case Err(e) => e == BalanceOverflow
    case Ok((g, d)) =>
      && Sound(g, markets, taker) && TakerRow(g, req, taker) && Progress(f, c, g, d, markets, req, taker)
      && (req.kind.Limit? && d.remaining > 0 ==> Exhausted(g, ids))
  }

  /** What is known of the next resting order of a loop. */
  lemma NextMaker(f: Floor, markets: seq<Venue>, req: Request, taker: Id, ids: seq<Id>, c: Cursor)
    requires ids != [] && Running(f, markets, req, taker, ids, c)
    ensures Meets(f, markets, taker, ids[0]) && RowOk(f.orders[ids[0]]) && f.orders[ids[0]].owner in f.accounts
    ensures BankOk(f) && TakerRow(f, req, taker) && Sound(f, markets, taker) && c.remaining <= req.quantity
  {
    assert Meets(f, markets, taker, ids[0]);
  }

  /** One settled fill: the loop may go on, one step further. */
  lemma FillContinues(f: Floor, g: Floor, markets: seq<Venue>, req: Request, taker: Id, ids: seq<Id>, c: Cursor, q: int)
    requires ids != [] && Running(f, markets, req, taker, ids, c)
    requires 0 < q <= Min(c.remaining, f.orders[ids[0]].remaining)
    requires FillShape(f, g, taker, ids[0], q) && FillPaid(f, g, req, ids[0], q)
    ensures Running(g, markets, req, taker, ids[1..], Advance(c, f.orders[ids[0]].price, q))
    ensures Progress(f, c, g, Advance(c, f.orders[ids[0]].price, q), markets, req, taker)
  {
    assert Meets(f, markets, taker, ids[0]);
    FillKeepsSound(f, g, markets, req, taker, ids[0], q);
    FillProgress(f, g, c, markets, req, taker, ids[0], q);
    MakersAfterFill(f, g, markets, taker, ids, q);
  }

  /** Glues one fill in front of the rest of a loop. */
  lemma LoopStep(f: Floor, g: Floor, markets: seq<Venue>, req: Request, taker: Id, ids: seq<Id>, c: Cursor, d: Cursor,
                 fill: int, rest: Result<(Floor, Cursor)>)
    requires ids != [] && FillShape(f, g, taker, ids[0], fill)
    requires d == Advance(c, f.orders[ids[0]].price, fill)
    requires fill == Min(c.remaining, f.orders[ids[0]].remaining) || req.kind.Market?
    requires Progress(f, c, g, d, markets, req, taker)
    requires Matched(g, d, rest, markets, req, taker, ids[1..])
    ensures Matched(f, c, rest, markets, req, taker, ids)
  {
    hide Sum; hide Total; hide Sound;
    if rest.Ok? {
      var (h, e) := rest.value;
      ProgressTrans(f, c, g, d, h, e, markets, req, taker);
      if req.kind.Limit? && e.remaining > 0 {
        assert Weaker(g.orders[ids[0]], h.orders[ids[0]]);
        forall k | 0 <= k < |ids|
          ensures ids[k] < |h.orders| && !Resting(h.orders[ids[k]])
        {
          if k > 0 { assert ids[k] == ids[1..][k - 1]; }
        }
      }
    }
  }

  lemma LoopStops(f: Floor, markets: seq<Venue>, req: Request, taker: Id, ids: seq<Id>, c: Cursor)
    requires Running(f, markets, req, taker, ids, c)
    requires ids == [] || c.remaining == 0 || req.kind.Market?
    ensures Matched(f, c, Ok((f, c)), markets, req, taker, ids)
  {
    ProgressRefl(f, c, markets, req, taker);
  }

  lemma BuyStep(f: Floor, markets: seq<Venue>, req: Request, taker: Id, asks: seq<Id>, c: Cursor)
    requires asks != [] && Running(f, markets, req, taker, asks, c) && req.side.Buy? && 0 < c.remaining
    ensures asks[0] < |f.orders| && f.orders[asks[0]].price > 0 && 0 < f.orders[asks[0]].remaining
    ensures var ask := f.orders[asks[0]];
            var fill := BuyQuantity(f, req, ask, c.remaining);
            0 < fill ==>
              match BuyFill(f, req, taker, asks[0], fill)
              case Err(e) => e == BalanceOverflow
              case Ok(g) =>
                && FillShape(f, g, taker, asks[0], fill)
                && Running(g, markets, req, taker, asks[1..], Advance(c, ask.price, fill))
                && Progress(f, c, g, Advance(c, ask.price, fill), markets, req, taker)
  {
    hide Sum; hide Total; hide Running; hide Sound; hide BankOk; hide BuyFill; hide Progress; hide Traded;
    hide FillShape;
    var id := asks[0];
    NextMaker(f, markets, req, taker, asks, c);
    var ask := f.orders[id];
    var fill := BuyQuantity(f, req, ask, c.remaining);
    if 0 < fill {
      QuotientBound(f.accounts[req.player], ask.price, fill);
      BuyFillMoves(f, markets, req, taker, id, fill);
      var r := BuyFill(f, req, taker, id, fill);
      if r.Ok? {
        FillContinues(f, r.value, markets, req, taker, asks, c, fill);
      }
    }
  }

  lemma SellStep(f: Floor, markets: seq<Venue>, req: Request, taker: Id, bids: seq<Id>, c: Cursor)
    requires bids != [] && Running(f, markets, req, taker, bids, c) && req.side.Sell? && 0 < c.remaining
    ensures bids[0] < |f.orders|
    ensures var bid := f.orders[bids[0]];
            var fill := Min(c.remaining, bid.remaining);
            match SellFill(f, req, taker, bids[0], fill)
            case Err(e) => e == BalanceOverflow
            case Ok(g) =>
              && FillShape(f, g, taker, bids[0], fill)
              && Running(g, markets, req, taker, bids[1..], Advance(c, bid.price, fill))
              && Progress(f, c, g, Advance(c, bid.price, fill), markets, req, taker)
  {
    hide Sum; hide Total; hide Running; hide Sound; hide BankOk; hide SellFill; hide Progress; hide Traded;
    hide FillShape;
    hide RowOk;
    var id := bids[0];
    NextMaker(f, markets, req, taker, bids, c);
    var fill := Min(c.remaining, f.orders[id].remaining);
    BidCoversFill(f.orders[id], fill);
    SellFillMoves(f, req, taker, id, fill);
    var r := SellFill(f, req, taker, id, fill);
    if r.Ok? {
      FillContinues(f, r.value, markets, req, taker, bids, c, fill);
    }
  }

  /** The buy loop, from any point it may be at. */
  lemma {:induction false} BuyLoopMatches(f: Floor, markets: seq<Venue>, req: Request, taker: Id, asks: seq<Id>,
                                          c: Cursor)
    requires Running(f, markets, req, taker, asks, c) && req.side.Buy? && ValidMakers(f, asks)
    requires 0 <= c.remaining && req.player in f.accounts
    ensures Matched(f, c, BuyLoop(f, req, taker, asks, c), markets, req, taker, asks)
    decreases |asks|
  {
    hide Running; hide Progress; hide FillShape; hide Sound; hide TakerRow; hide Exhausted;
    hide BuyFill; hide SellFill;
    if asks == [] || c.remaining == 0 {
      LoopStops(f, markets, req, taker, asks, c);
    } else {
      BuyStep(f, markets, req, taker, asks, c);
      var ask := f.orders[asks[0]];
      var fill := BuyQuantity(f, req, ask, c.remaining);
      if fill <= 0 {
        LoopStops(f, markets, req, taker, asks, c);
      } else {
        var r := BuyFill(f, req, taker, asks[0], fill);
        if r.Ok? {
          var g, d := r.value, Advance(c, ask.price, fill);
          MakersAreValid(g, markets, req, taker, asks[1..], d);
          BuyLoopMatches(g, markets, req, taker, asks[1..], d);
          LoopStep(f, g, markets, req, taker, asks, c, d, fill, BuyLoop(g, req, taker, asks[1..], d));
        }
      }
    }
  }

  /** The sell loop, from any point it may be at. */
  lemma {:induction false} SellLoopMatches(f: Floor, markets: seq<Venue>, req: Request, taker: Id, bids: seq<Id>,
                                           c: Cursor)
    requires Running(f, markets, req, taker, bids, c) && req.side.Sell? && ValidMakers(f, bids)
    requires 0 <= c.remaining
    ensures Matched(f, c, SellLoop(f, req, taker, bids, c), markets, req, taker, bids)
    decreases |bids|
  {
    hide Running; hide Progress; hide FillShape; hide Sound; hide TakerRow; hide Exhausted;
    hide BuyFill; hide SellFill;
    if bids == [] || c.remaining == 0 {
      LoopStops(f, markets, req, taker, bids, c);
    } else {
      SellStep(f, markets, req, taker, bids, c);
      var bid := f.orders[bids[0]];
      var fill := Min(c.remaining, bid.remaining);
      var r := SellFill(f, req, taker, bids[0], fill);
      if r.Ok? {
        var g, d := r.value, Advance(c, bid.price, fill);
        MakersAreValid(g, markets, req, taker, bids[1..], d);
        SellLoopMatches(g, markets, req, taker, bids[1..], d);
        LoopStep(f, g, markets, req, taker, bids, c, d, fill, SellLoop(g, req, taker, bids[1..], d));
      }
    }
  }
}
