/**
 What a committed order writes, row by row: one delivery and a fixed set of ledger entries for
 every trade, less in the rows it traded with, and no change to any other row.
 */
module Booking {
  import opened Sums
  import opened Domain
  import opened Matching
  import opened Settlement
  import opened MatchingLoops
  import opened Placement
  import opened Priority

  /** The delivery a trade makes for its buyer. */
  function Parcel(t: Trade): Delivery
  {
    Delivery(t.buyer, t.market, t.quantity, 0, 0, TradeBuy)
  }

  function Parcels(trades: seq<Trade>): seq<Delivery>
  {
    seq(|trades|, i requires 0 <= i < |trades| => Parcel(trades[i]))
  }

  /**
   The ledger entries of a trade: the seller earns its value; an incoming market buy pays it
   now, and an incoming limit buy gets back what it reserved above it.
   */
  function TradeEntries(req: Request, t: Trade): seq<Entry>
  {
    var value := t.price * t.quantity;
    var earned := [Entry(t.seller, value, TradeProceeds, Some(t.sellOrder))];
    if req.side.Sell? then earned
    else if req.kind.Market? then [Entry(t.buyer, -value, MarketBuyTrade, Some(t.buyOrder))] + earned
    else if t.price == req.price then earned
    else [Entry(t.buyer, req.price * t.quantity - value, PriceImprovementRefund, Some(t.buyOrder))] + earned
  }

  function Entries(req: Request, trades: seq<Trade>): seq<Entry>
  {
    if trades == [] then [] else TradeEntries(req, trades[0]) + Entries(req, trades[1..])
  }

  /** The row of an order that traded `q` units. */
  function LessTraded(o: Order, q: int): Order
  {
    if q == 0 then o
    else o.(remaining := o.remaining - q, reserved := if o.side.Buy? then o.reserved - o.price * q else o.reserved,
            status := if q == o.remaining then Filled else Partial)
  }

  /** The row of a committed order. */
  function CommittedOrder(req: Request, x: Execution): Order
  {
    var price := if req.kind.Limit? then req.price else 0;
    var status := if x.filled == req.quantity then Filled else if 0 < x.filled then Partial
      else if req.kind.Limit? then Open else Canceled;
    Order(req.market, req.player, req.side, req.kind, price, req.quantity, x.open,
          if req.side.Buy? then price * x.open else 0, status)
  }

  /** Everything a committed order wrote. */
  ghost predicate Booked(f: Floor, k: Floor, req: Request, x: Execution, opening: seq<Entry>, closing: seq<Delivery>)
  {
    && f.trades <= k.trades
    && var trades := k.trades[|f.trades|..];
    && k.ledger == f.ledger + opening + Entries(req, trades)
    && k.deliveries == f.deliveries + Parcels(trades) + closing
    && |k.orders| == |f.orders| + 1 && k.orders[|f.orders|] == CommittedOrder(req, x)
    && forall i: nat :: i < |f.orders| ==>
         k.orders[i] == LessTraded(f.orders[i], Sum(trades, UnitsOf(f.orders[i].side, i)))
  }

  // ----- between two points of a loop -----

  /** The same, between two points of a matching loop. */
  ghost predicate Posted(f: Floor, g: Floor, req: Request)
  {
    && f.trades <= g.trades && |g.orders| == |f.orders|
    && g.ledger == f.ledger + Entries(req, g.trades[|f.trades|..])
    && g.deliveries == f.deliveries + Parcels(g.trades[|f.trades|..])
    && forall i :: 0 <= i < |f.orders| ==> (g.orders[i].status.Canceled? <==> f.orders[i].status.Canceled?)
  }

  lemma {:induction false} EntriesAppend(req: Request, a: seq<Trade>, b: seq<Trade>)
    ensures Entries(req, a + b) == Entries(req, a) + Entries(req, b)
  {
    if a == [] {
      assert a + b == b;
    } else {
      assert (a + b)[1..] == a[1..] + b;
      EntriesAppend(req, a[1..], b);
    }
  }

  lemma PostedRefl(f: Floor, req: Request)
    ensures Posted(f, f, req)
  {
    assert f.trades[|f.trades|..] == [];
  }

  lemma Suffixes<T>(a: seq<T>, b: seq<T>, c: seq<T>)
    requires a <= b <= c
    ensures a <= c && c[|a|..] == b[|a|..] + c[|b|..]
  {
  }

  lemma Appended<T>(a: seq<T>, x: seq<T>, y: seq<T>)
    ensures a + x + y == a + (x + y)
  {
  }

  lemma PostedTrans(f: Floor, g: Floor, h: Floor, req: Request)
    requires Posted(f, g, req) && Posted(g, h, req)
    ensures Posted(f, h, req)
  {
    hide Parcels; hide Entries;
    var a, b := g.trades[|f.trades|..], h.trades[|g.trades|..];
    Suffixes(f.trades, g.trades, h.trades);
    EntriesAppend(req, a, b);
    ParcelsAppend(a, b);
    Appended(f.ledger, Entries(req, a), Entries(req, b));
    Appended(f.deliveries, Parcels(a), Parcels(b));
  }

  lemma ParcelsAppend(a: seq<Trade>, b: seq<Trade>)
    ensures Parcels(a + b) == Parcels(a) + Parcels(b)
  {
  }

  /** A fill posts the entries of its one trade. */
  lemma FillPosts(f: Floor, g: Floor, req: Request, taker: Id, maker: Id, q: int)
    requires FillShape(f, g, taker, maker, q) && Resting(f.orders[maker])
    requires g.ledger == f.ledger + TradeEntries(req, FillTrade(f, taker, maker, q))
    ensures Posted(f, g, req)
  {
    var t := FillTrade(f, taker, maker, q);
    assert g.trades[|f.trades|..] == [t];
    assert Entries(req, [t]) == TradeEntries(req, t) + Entries(req, [t][1..]);
    assert Parcels([t]) == [Parcel(t)];
  }

  lemma GainIsPositive(a: int, b: int, q: int)
    requires b < a && 0 < q
    ensures 0 < (a - b) * q == a * q - b * q
  {
  }

  lemma ValueIsPositive(a: int, q: int)
    requires 0 < a && 0 < q
    ensures 0 < a * q
  {
  }

  lemma BuyFillEntries(f: Floor, req: Request, taker: Id, id: Id, fill: int)
    requires id < |f.orders| && TakerRow(f, req, taker) && f.orders[taker].side.Buy?
    requires 0 < fill && 0 < f.orders[id].price && (req.kind.Limit? ==> f.orders[id].price <= req.price)
    ensures var r := BuyFill(f, req, taker, id, fill);
            r.Ok? ==> r.value.ledger == f.ledger + TradeEntries(req, FillTrade(f, taker, id, fill))
  {
    var price := f.orders[id].price;
    ValueIsPositive(price, fill);
    if req.kind.Limit? && price < req.price { GainIsPositive(req.price, price, fill); }
    hide INT64_MAX;
  }

  lemma SellFillEntries(f: Floor, req: Request, taker: Id, id: Id, fill: int)
    requires id < |f.orders| && TakerRow(f, req, taker) && f.orders[taker].side.Sell?
    requires 0 < fill && 0 < f.orders[id].price
    ensures var r := SellFill(f, req, taker, id, fill);
            r.Ok? ==> r.value.ledger == f.ledger + TradeEntries(req, FillTrade(f, taker, id, fill))
  {
    ValueIsPositive(f.orders[id].price, fill);
  }

  lemma MakerWithin(f: Floor, markets: seq<Venue>, req: Request, taker: Id, ids: seq<Id>, c: Cursor)
    requires ids != [] && Running(f, markets, req, taker, ids, c)
    ensures ids[0] < |f.orders| && Resting(f.orders[ids[0]]) && 0 < f.orders[ids[0]].price
    ensures 0 < f.orders[ids[0]].remaining
    ensures TakerRow(f, req, taker) && f.orders[taker].side == req.side
    ensures req.side.Buy? && req.kind.Limit? ==> f.orders[ids[0]].price <= req.price
  {
    hide Sum; hide Total; hide Sound;
    NextMaker(f, markets, req, taker, ids, c);
  }

  lemma {:induction false} BuyLoopPosts(f: Floor, markets: seq<Venue>, req: Request, taker: Id, asks: seq<Id>,
                                        c: Cursor)
    requires Running(f, markets, req, taker, asks, c) && req.side.Buy? && ValidMakers(f, asks)
    requires 0 <= c.remaining && req.player in f.accounts
    ensures match BuyLoop(f, req, taker, asks, c)
            case Err(_) => true
            case Ok((g, _)) => Posted(f, g, req)
    decreases |asks|
  {
    hide Running; hide Progress; hide FillShape; hide Posted; hide BuyFill; hide TakerRow;
    PostedRefl(f, req);
    if asks != [] && c.remaining != 0 {
      BuyStep(f, markets, req, taker, asks, c);
      MakerWithin(f, markets, req, taker, asks, c);
      var ask := f.orders[asks[0]];
      var fill := BuyQuantity(f, req, ask, c.remaining);
      if 0 < fill {
        var r := BuyFill(f, req, taker, asks[0], fill);
        if r.Ok? {
          var g, d := r.value, Advance(c, ask.price, fill);
          BuyFillEntries(f, req, taker, asks[0], fill);
          FillPosts(f, g, req, taker, asks[0], fill);
          MakersAreValid(g, markets, req, taker, asks[1..], d);
          BuyLoopPosts(g, markets, req, taker, asks[1..], d);
          var s := BuyLoop(g, req, taker, asks[1..], d);
          if s.Ok? { PostedTrans(f, g, s.value.0, req); }
        }
      }
    }
  }

  lemma {:induction false} SellLoopPosts(f: Floor, markets: seq<Venue>, req: Request, taker: Id, bids: seq<Id>,
                                         c: Cursor)
    requires Running(f, markets, req, taker, bids, c) && req.side.Sell? && ValidMakers(f, bids)
    requires 0 <= c.remaining
    ensures match SellLoop(f, req, taker, bids, c)
            case Err(_) => true
            case Ok((g, _)) => Posted(f, g, req)
    decreases |bids|
  {
    hide Running; hide Progress; hide FillShape; hide Posted; hide SellFill; hide TakerRow;
    PostedRefl(f, req);
    if bids != [] && c.remaining != 0 {
      SellStep(f, markets, req, taker, bids, c);
      MakerWithin(f, markets, req, taker, bids, c);
      var bid := f.orders[bids[0]];
      var fill := Min(c.remaining, bid.remaining);
      var r := SellFill(f, req, taker, bids[0], fill);
      if r.Ok? {
        var g, d := r.value, Advance(c, bid.price, fill);
        SellFillEntries(f, req, taker, bids[0], fill);
        FillPosts(f, g, req, taker, bids[0], fill);
        MakersAreValid(g, markets, req, taker, bids[1..], d);
        SellLoopPosts(g, markets, req, taker, bids[1..], d);
        var s := SellLoop(g, req, taker, bids[1..], d);
        if s.Ok? { PostedTrans(f, g, s.value.0, req); }
      }
    }
  }

  // ----- rows -----

  /** Two sound states of one order differ by what it traded in between, unless it was canceled. */
  lemma RowFollows(o: Order, n: Order, before: int, after: int)
    requires Weaker(o, n) && RowOk(o) && RowOk(n) && TradedOk(o, before) && TradedOk(n, after)
    requires 0 <= before <= after && (n.status.Canceled? <==> o.status.Canceled?)
    requires !Resting(o) ==> after == before
    ensures n == LessTraded(o, after - before)
  {
    if Resting(o) && o.side.Buy? {
      assert o.price * n.remaining == o.price * o.remaining - o.price * (after - before);
    }
  }

  lemma {:induction false} SumConcat<T>(a: seq<T>, b: seq<T>, w: T -> int)
    ensures Sum(a + b, w) == Sum(a, w) + Sum(b, w)
  {
    if b == [] {
      assert a + b == a;
    } else {
      var n := |b| - 1;
      assert (a + b)[..|a| + n] == a + b[..n];
      SumConcat(a, b[..n], w);
    }
  }

  /** Only the orders of the queue trade with an incoming order. */
  lemma OthersDoNotTrade(f: Floor, k: Floor, markets: seq<Venue>, req: Request, x: Execution, q: Query, ids: seq<Id>,
                         i: Id)
    requires PriceTimeQueue(f.orders, markets, q, ids) && InPriority(f, k, req, x, ids)
    requires x.order == |f.orders| && i < |f.orders| && !Resting(f.orders[i])
    ensures Sum(k.trades[|f.trades|..], UnitsOf(f.orders[i].side, i)) == 0
  {
    hide Sum; hide PassedOver;
    var trades := k.trades[|f.trades|..];
    assert i !in ids;
    forall j | 0 <= j < |trades|
      ensures UnitsOf(f.orders[i].side, i)(trades[j]) == 0
    {
      assert TradedAt(f, k, req, x, ids, j) && ids[j] in ids;
    }
    SumZero(trades, UnitsOf(f.orders[i].side, i));
  }

  lemma UnitsAreNatural(k: Floor, markets: seq<Venue>, n: nat, side: Side, i: Id)
    requires TradesOk(k, markets) && n <= |k.trades|
    ensures 0 <= Sum(k.trades[n..], UnitsOf(side, i))
  {
    hide Sum;
    var trades := k.trades[n..];
    forall j | 0 <= j < |trades|
      ensures 0 <= UnitsOf(side, i)(trades[j])
    {
      assert TradeOk(k.orders, markets, k.trades[n + j]);
    }
    SumNonNegative(trades, UnitsOf(side, i));
  }

  /** What placing an order did to an order that was there before. */
  lemma OldRowFollows(f: Floor, k: Floor, markets: seq<Venue>, req: Request, x: Execution, q: Query, ids: seq<Id>,
                      i: Id)
    requires Sound(f, markets, -1) && Executed(f, k, markets, req, x) && i < |f.orders|
    requires PriceTimeQueue(f.orders, markets, q, ids) && InPriority(f, k, req, x, ids)
    requires k.orders[i].status.Canceled? <==> f.orders[i].status.Canceled?
    ensures f.trades <= k.trades
    ensures k.orders[i] == LessTraded(f.orders[i], Sum(k.trades[|f.trades|..], UnitsOf(f.orders[i].side, i)))
  {
    hide Sum; hide Total; hide LessTraded; hide Money; hide Surplus; hide Undelivered; hide Unaccounted; hide Position;
    hide BankOk; hide Uncrossed; hide TradedAt; hide PassedOver; hide PriceTimeQueue; hide Linked; hide TradeOk;
    hide RowOk; hide TradedOk;
    var o, n := f.orders[i], k.orders[i];
    var w := UnitsOf(o.side, i);
    var trades := k.trades[|f.trades|..];
    assert k.trades == f.trades + trades;
    SumConcat(f.trades, trades, w);
    UnitsAreNatural(k, markets, |f.trades|, o.side, i);
    TradedNatural(f, markets, i);
    if !Resting(o) { OthersDoNotTrade(f, k, markets, req, x, q, ids, i); }
    assert RowOk(o) && TradedOk(o, Traded(f, i)) && RowOk(n) && TradedOk(n, Traded(k, i));
    hide Sound; hide Executed; hide InPriority; hide UnitsOf;
    RowFollows(o, n, Traded(f, i), Traded(k, i));
  }

  lemma TradedNatural(f: Floor, markets: seq<Venue>, i: Id)
    requires TradesOk(f, markets) && i < |f.orders|
    ensures 0 <= Traded(f, i)
  {
    UnitsAreNatural(f, markets, 0, f.orders[i].side, i);
    assert f.trades[0..] == f.trades;
  }

  /** The new row, from its report. */
  lemma NewRowFollows(f: Floor, k: Floor, markets: seq<Venue>, req: Request, x: Execution)
    requires Executed(f, k, markets, req, x) && ValidOrder(req)
    ensures k.orders[|f.orders|] == CommittedOrder(req, x)
  {
    hide Sum; hide Total; hide Money; hide Surplus; hide Undelivered; hide Unaccounted; hide Position;
    hide BankOk; hide Uncrossed; hide Linked; hide TradesOk;
    assert RowOk(k.orders[x.order]) && TradedOk(k.orders[x.order], x.filled);
  }

  /** A loop's postings, seen from before the order was inserted and after it was closed. */
  lemma PostedIsBooked(f: Floor, g: Floor, h: Floor, k: Floor, markets: seq<Venue>, req: Request, x: Execution,
                       q: Query, ids: seq<Id>, opening: seq<Entry>, closing: seq<Delivery>)
    requires Sound(f, markets, -1) && Executed(f, k, markets, req, x) && ValidOrder(req)
    requires PriceTimeQueue(f.orders, markets, q, ids) && InPriority(f, k, req, x, ids)
    requires Posted(g, h, req) && g.trades == f.trades && g.deliveries == f.deliveries
    requires g.ledger == f.ledger + opening && |g.orders| == |f.orders| + 1 && g.orders[..|f.orders|] == f.orders
    requires k.trades == h.trades && k.ledger == h.ledger && k.deliveries == h.deliveries + closing
    requires |k.orders| == |h.orders| && forall i: nat :: i < |f.orders| ==> k.orders[i] == h.orders[i]
    ensures Booked(f, k, req, x, opening, closing)
  {
    hide Sum; hide Total; hide Sound; hide Executed; hide InPriority; hide PriceTimeQueue; hide LessTraded;
    hide Entries; hide Parcels; hide CommittedOrder; hide ValidOrder;
    NewRowFollows(f, k, markets, req, x);
    forall i: nat | i < |f.orders|
      ensures k.orders[i] == LessTraded(f.orders[i], Sum(k.trades[|f.trades|..], UnitsOf(f.orders[i].side, i)))
    {
      assert g.orders[i] == g.orders[..|f.orders|][i];
      OldRowFollows(f, k, markets, req, x, q, ids, i);
    }
  }

  // ----- whole orders -----

  /** The reserve of a limit buy, as the ledger shows it. */
  function ReserveEntries(req: Request, order: Id): seq<Entry>
  {
    if req.kind.Limit? then [Entry(req.player, -req.price * req.quantity, BuyOrderReserve, Some(order))] else []
  }

  /** What a sell gives back at once: the units a market sell found no bid for. */
  function Remainder(req: Request, x: Execution): seq<Delivery>
  {
    if req.kind.Market? && x.filled < req.quantity then
      [Delivery(req.player, req.market, req.quantity - x.filled, 0, 0, MarketRemainder)]
    else []
  }

  /** A committed buy: its reserve, and for each trade its entries and its delivery; nothing else is written. */
  lemma BuyIsBooked(f: Floor, markets: seq<Venue>, req: Request)
    requires Sound(f, markets, -1) && ValidOrder(req) && req.side.Buy? && PricedRows(f)
    ensures match PlaceBuy(f, markets, req)
            case Err(_) => true
            case Ok((k, x)) => Booked(f, k, req, x, ReserveEntries(req, |f.orders|), [])
  {
    hide Sum; hide Total; hide Sound; hide PriceTimeQueue; hide OpenBuy; hide Running; hide InPriority; hide Candidates;
    hide PricedRows; hide SameHoldings; hide BuyLoop; hide ValidMakers; hide Executed; hide Posted; hide Booked;
    hide TakerRow;
    PlaceBuyExecutes(f, markets, req);
    BuyHasPriority(f, markets, req);
    if PlaceBuy(f, markets, req).Ok? {
      var g := OpenBuy(f, req).value;
      var q := MakerQuery(req, markets[req.market].book);
      var c := Cursor(req.quantity, 0, 0);
      var ids := Candidates(g.orders, markets, q);
      OpenBuyReady(f, g, markets, req);
      OpenedRuns(f, g, markets, req, |f.orders|);
      RunningBalance(g, markets, req, |f.orders|, ids, c);
      BuyLoopPosts(g, markets, req, |f.orders|, ids, c);
      var (h, d) := BuyLoop(g, req, |f.orders|, ids, c).value;
      var (k, x) := PlaceBuy(f, markets, req).value;
      OpeningEntries(f, req);
      LoopKeepsRows(g, h, req);
      PostedIsBooked(f, g, h, k, markets, req, x, q, Candidates(f.orders, markets, q), ReserveEntries(req, |f.orders|),
                     []);
    }
  }

  lemma LoopKeepsRows(g: Floor, h: Floor, req: Request)
    requires Posted(g, h, req)
    ensures |h.orders| == |g.orders|
  {
  }

  lemma OpeningEntries(f: Floor, req: Request)
    requires ValidOrder(req) && req.side.Buy? && OpenBuy(f, req).Ok?
    ensures var g := OpenBuy(f, req).value;
            && g.ledger == f.ledger + ReserveEntries(req, |f.orders|) && g.trades == f.trades
            && g.deliveries == f.deliveries && |g.orders| == |f.orders| + 1 && g.orders[..|f.orders|] == f.orders
  {
    hide NewOrder;
    if req.kind.Limit? {
      ValueIsPositive(req.price, req.quantity);
      assert BuyReserve(f, req) == Ok(req.price * req.quantity);
    } else {
      assert BuyReserve(f, req) == Ok(0) && f.ledger + [] == f.ledger;
    }
    hide BuyReserve; hide INT64_MAX;
    var g := OpenBuy(f, req).value;
    assert g.orders == f.orders + [g.orders[|f.orders|]];
  }

  /** A committed sell: for each trade its entry and its delivery, and back what a market sell has left. */
  lemma SellIsBooked(f: Floor, markets: seq<Venue>, req: Request)
    requires Sound(f, markets, -1) && ValidOrder(req) && req.side.Sell? && PricedRows(f)
    ensures match PlaceSell(f, markets, req)
            case Err(_) => true
            case Ok((k, x)) => Booked(f, k, req, x, [], Remainder(req, x))
  {
    hide Sum; hide Total; hide Sound; hide PriceTimeQueue; hide Running; hide InPriority; hide Candidates;
    hide PricedRows; hide SameHoldings; hide SellLoop; hide ValidMakers; hide Executed; hide Posted; hide Booked;
    hide TakerRow;
    PlaceSellExecutes(f, markets, req);
    SellHasPriority(f, markets, req);
    if PlaceSell(f, markets, req).Ok? {
      var g := OpenSell(f, req).value;
      var q := MakerQuery(req, markets[req.market].book);
      var c := Cursor(req.quantity, 0, 0);
      var ids := Candidates(g.orders, markets, q);
      OpenSellReady(f, g, markets, req);
      OpenedRuns(f, g, markets, req, |f.orders|);
      SellLoopPosts(g, markets, req, |f.orders|, ids, c);
      SellLoopMatches(g, markets, req, |f.orders|, ids, c);
      var (h, d) := SellLoop(g, req, |f.orders|, ids, c).value;
      var (k, x) := PlaceSell(f, markets, req).value;
      LoopKeepsRows(g, h, req);
      MatchedBalances(g, c, h, d, markets, req, |f.orders|, ids);
      PostedIsBooked(f, g, h, k, markets, req, x, q, Candidates(f.orders, markets, q), [], Remainder(req, x));
    }
  }
}
