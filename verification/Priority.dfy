/**
 Who an incoming order trades with, and how well a market buy does: fills run down the
 price-time queue, and no other choice of asks would have bought more, or as much for less.
 */
module Priority {
  import opened Sums
  import opened Domain
  import opened Matching
  import opened Settlement
  import opened MatchingLoops
  import opened Placement

  // ----- the queue is served from the front -----

  /** The number of fills between two points of a loop. */
  function Fills(f: Floor, g: Floor): int { |g.trades| - |f.trades| }

  /** The unit the loop could not buy any more: out of quantity, or a market buy out of money. */
  predicate Stopped(g: Floor, d: Cursor, req: Request, price: int)
  {
    d.remaining == 0 || (req.side.Buy? && req.kind.Market? && req.player in g.accounts
                         && g.accounts[req.player] < price)
  }

  /** Trade `k` is with order `k` of the queue at its price; an order with a rest is the last one traded with. */
  predicate FilledAt(f: Floor, g: Floor, d: Cursor, req: Request, taker: Id, ids: seq<Id>, k: nat)
  {
    && k < |ids| && ids[k] < |f.orders| && taker < |f.orders| && |f.trades| + k < |g.trades|
    && var t := g.trades[|f.trades| + k];
    && t == FillTrade(f, taker, ids[k], t.quantity)
    && 0 < t.quantity <= f.orders[ids[k]].remaining
    && (t.quantity < f.orders[ids[k]].remaining ==> k == Fills(f, g) - 1 && Stopped(g, d, req, t.price))
  }

  /** Order `k` of the queue is untouched; the first such could not be traded with any more. */
  predicate LeftAt(f: Floor, g: Floor, d: Cursor, req: Request, ids: seq<Id>, k: nat)
  {
    && k < |ids| && ids[k] < |f.orders| && ids[k] < |g.orders| && g.orders[ids[k]] == f.orders[ids[k]]
    && (k == Fills(f, g) ==> Stopped(g, d, req, f.orders[ids[k]].price))
  }

  /**
   The new trades are with a prefix of the queue, in queue order, each at the resting price;
   all but the last consume their order; the rest of the queue is untouched, and the loop
   stopped only for lack of quantity, money or orders.
   */
  ghost predicate Served(f: Floor, g: Floor, d: Cursor, req: Request, taker: Id, ids: seq<Id>)
  {
    var n := Fills(f, g);
    && taker < |f.orders| == |g.orders| && 0 <= n <= |ids| && f.trades <= g.trades
    && (forall k: nat :: k < n ==> FilledAt(f, g, d, req, taker, ids, k))
    && (forall k: nat :: n <= k < |ids| ==> LeftAt(f, g, d, req, ids, k))
  }

  /** What `Served` says about one order of the queue. */
  lemma ServedAt(f: Floor, g: Floor, d: Cursor, req: Request, taker: Id, ids: seq<Id>, k: nat)
    requires Served(f, g, d, req, taker, ids) && k < |ids|
    ensures k < Fills(f, g) ==> FilledAt(f, g, d, req, taker, ids, k)
    ensures Fills(f, g) <= k ==> LeftAt(f, g, d, req, ids, k)
    ensures ids[k] < |f.orders| == |g.orders|
  {
    hide FillTrade; hide Stopped;
  }

  lemma ServedNone(f: Floor, d: Cursor, req: Request, taker: Id, ids: seq<Id>)
    requires taker < |f.orders| && forall k :: 0 <= k < |ids| ==> ids[k] < |f.orders|
    requires ids == [] || Stopped(f, d, req, f.orders[ids[0]].price)
    ensures Served(f, f, d, req, taker, ids)
  {
    hide Stopped;
  }

  /** Behind the first fill the queue stands as it stood before. */
  lemma ServedLater(f: Floor, g: Floor, h: Floor, e: Cursor, req: Request, taker: Id, ids: seq<Id>, q: int, k: nat)
    requires 0 < k < |ids| && FillShape(f, g, taker, ids[0], q) && ids[k] < |f.orders| && ids[k] != ids[0]
             && taker != ids[k]
    requires taker < |f.orders| == |g.orders| == |h.orders|
    requires Fills(f, h) == Fills(g, h) + 1
    ensures FilledAt(g, h, e, req, taker, ids[1..], k - 1) ==> FilledAt(f, h, e, req, taker, ids, k)
    ensures LeftAt(g, h, e, req, ids[1..], k - 1) ==> LeftAt(f, h, e, req, ids, k)
  {
    hide Stopped;
    assert ids[1..][k - 1] == ids[k];
  }

  lemma ServedStep(f: Floor, g: Floor, h: Floor, e: Cursor, markets: seq<Venue>, req: Request, taker: Id, ids: seq<Id>,
                   q: int)
    requires ids != [] && Makers(f, markets, taker, ids) && FillShape(f, g, taker, ids[0], q)
    requires 0 < q <= f.orders[ids[0]].remaining
    requires Served(g, h, e, req, taker, ids[1..])
    requires q < f.orders[ids[0]].remaining ==> Fills(g, h) == 0 && Stopped(h, e, req, f.orders[ids[0]].price)
    ensures Served(f, h, e, req, taker, ids)
  {
    hide Stopped; hide Served; hide FilledAt; hide LeftAt;
    ServedBounds(g, h, e, req, taker, ids[1..]);
    FirstFilled(f, g, h, e, req, taker, ids, q);
    forall k: nat | 0 < k < |ids|
      ensures k < Fills(f, h) ==> FilledAt(f, h, e, req, taker, ids, k)
      ensures Fills(f, h) <= k ==> LeftAt(f, h, e, req, ids, k)
    {
      assert Meets(f, markets, taker, ids[k]) && Meets(f, markets, taker, ids[0]);
      ServedAt(g, h, e, req, taker, ids[1..], k - 1);
      ServedLater(f, g, h, e, req, taker, ids, q, k);
    }
    IsServed(f, h, e, req, taker, ids);
  }

  lemma IsServed(f: Floor, g: Floor, d: Cursor, req: Request, taker: Id, ids: seq<Id>)
    requires taker < |f.orders| == |g.orders| && 0 <= Fills(f, g) <= |ids| && f.trades <= g.trades
    requires forall k: nat :: k < Fills(f, g) ==> FilledAt(f, g, d, req, taker, ids, k)
    requires forall k: nat :: Fills(f, g) <= k < |ids| ==> LeftAt(f, g, d, req, ids, k)
    ensures Served(f, g, d, req, taker, ids)
  {
    hide FilledAt; hide LeftAt;
  }

  lemma ServedBounds(f: Floor, g: Floor, d: Cursor, req: Request, taker: Id, ids: seq<Id>)
    requires Served(f, g, d, req, taker, ids)
    ensures taker < |f.orders| == |g.orders| && 0 <= Fills(f, g) <= |ids| && f.trades <= g.trades
  {
  }

  lemma FirstFilled(f: Floor, g: Floor, h: Floor, e: Cursor, req: Request, taker: Id, ids: seq<Id>, q: int)
    requires ids != [] && FillShape(f, g, taker, ids[0], q)
    requires taker < |f.orders| == |g.orders| == |h.orders| && ids[0] < |f.orders| && g.trades <= h.trades
    requires 0 < q <= f.orders[ids[0]].remaining && 0 <= Fills(g, h)
    requires q < f.orders[ids[0]].remaining ==> Fills(g, h) == 0 && Stopped(h, e, req, f.orders[ids[0]].price)
    ensures Fills(f, h) == Fills(g, h) + 1 && f.trades <= h.trades && FilledAt(f, h, e, req, taker, ids, 0)
  {
    hide Stopped;
    assert h.trades[|f.trades|] == g.trades[|f.trades|];
  }

  lemma OrderedAfterFill(f: Floor, g: Floor, side: Side, taker: Id, ids: seq<Id>, q: int)
    requires ids != [] && Ordered(f.orders, side, ids) && FillShape(f, g, taker, ids[0], q)
    ensures Ordered(g.orders, side, ids[1..])
  {
    var rest := ids[1..];
    forall j, k | 0 <= j < k < |rest|
      ensures rest[j] < |g.orders| && rest[k] < |g.orders| && Before(g.orders, side, rest[j], rest[k])
    {
      assert Before(f.orders, side, ids[j + 1], ids[k + 1]);
    }
  }

  /** When the money left does not buy one more unit here, it buys none further down the queue. */
  lemma OutOfMoney(g: Floor, req: Request, taker: Id, asks: seq<Id>, d: Cursor, price: int)
    requires ValidMakers(g, asks) && req.player in g.accounts && req.kind.Market? && req.side.Buy?
    requires 0 <= g.accounts[req.player] < price && 0 <= d.remaining
    requires asks != [] ==> price <= g.orders[asks[0]].price
    ensures BuyLoop(g, req, taker, asks, d) == Ok((g, d))
  {
    if asks != [] && d.remaining > 0 {
      QuotientBound(g.accounts[req.player], g.orders[asks[0]].price, 1);
    }
  }

  /** A loop that may be entered, over a queue in price-time order. */
  ghost predicate Queued(f: Floor, markets: seq<Venue>, req: Request, taker: Id, ids: seq<Id>, c: Cursor)
  {
    && Running(f, markets, req, taker, ids, c) && ValidMakers(f, ids)
    && Ordered(f.orders, if req.side.Buy? then Sell else Buy, ids)
    && 0 <= c.remaining && req.player in f.accounts && 0 <= f.accounts[req.player] && taker < |f.orders|
  }

  /** One step of the buy loop: what it takes, and why it takes no more. */
  lemma BuyServes(f: Floor, markets: seq<Venue>, req: Request, taker: Id, asks: seq<Id>, c: Cursor)
    requires Queued(f, markets, req, taker, asks, c) && req.side.Buy? && asks != [] && 0 < c.remaining
    ensures asks[0] < |f.orders| && req.player in f.accounts && 0 < f.orders[asks[0]].price
    ensures var ask := f.orders[asks[0]];
            var fill := BuyQuantity(f, req, ask, c.remaining);
            && fill <= ask.remaining && fill <= c.remaining
            && (fill <= 0 ==> req.kind.Market? && 0 <= f.accounts[req.player] < ask.price)
            && (0 < fill ==>
                match BuyFill(f, req, taker, asks[0], fill)
                case Err(_) => true
                case Ok(g) =>
                  && FillShape(f, g, taker, asks[0], fill)
                  && Queued(g, markets, req, taker, asks[1..], Advance(c, ask.price, fill))
                  && (req.kind.Market? ==> g.accounts[req.player] == f.accounts[req.player] - ask.price * fill)
                  && (fill < ask.remaining && fill < c.remaining ==>
                        && req.kind.Market? && 0 <= g.accounts[req.player] < ask.price
                        && (asks[1..] != [] ==> ask.price <= g.orders[asks[1]].price)))
  {
    hide Running; hide Progress; hide ValidMakers; hide BuyFill; hide Sum; hide Total;
    BuyStep(f, markets, req, taker, asks, c);
    var ask := f.orders[asks[0]];
    var fill := BuyQuantity(f, req, ask, c.remaining);
    QuotientBound(f.accounts[req.player], ask.price, 1);
    QuotientBound(f.accounts[req.player], ask.price, fill + 1);
    if fill > 0 {
      var r := BuyFill(f, req, taker, asks[0], fill);
      if r.Ok? {
        var g, d := r.value, Advance(c, ask.price, fill);
        OrderedAfterFill(f, g, Sell, taker, asks, fill);
        MakersAreValid(g, markets, req, taker, asks[1..], d);
        RunningBalance(g, markets, req, taker, asks[1..], d);
        if req.kind.Market? { ProgressBalance(f, c, g, d, markets, req, taker); }
        assert asks[1..] != [] ==> Before(f.orders, Sell, asks[0], asks[1]);
      }
    }
  }

  lemma RunningBalance(f: Floor, markets: seq<Venue>, req: Request, taker: Id, ids: seq<Id>, c: Cursor)
    requires Running(f, markets, req, taker, ids, c)
    ensures taker < |f.orders| && req.player in f.accounts && 0 <= f.accounts[req.player] && 0 <= c.remaining
  {
  }

  lemma ProgressBalance(f: Floor, c: Cursor, g: Floor, d: Cursor, markets: seq<Venue>, req: Request, taker: Id)
    requires Progress(f, c, g, d, markets, req, taker) && req.side.Buy? && req.kind.Market?
    ensures g.accounts[req.player] == f.accounts[req.player] - (d.gross - c.gross)
  {
  }

  lemma QueuedFacts(f: Floor, markets: seq<Venue>, req: Request, taker: Id, ids: seq<Id>, c: Cursor)
    requires Queued(f, markets, req, taker, ids, c)
    ensures Makers(f, markets, taker, ids) && ValidMakers(f, ids) && req.player in f.accounts
    ensures 0 <= c.remaining && 0 <= f.accounts[req.player] && taker < |f.orders|
  {
  }

  /** A buy serves the cheapest, oldest asks first. */
  lemma {:induction false} BuyLoopServes(f: Floor, markets: seq<Venue>, req: Request, taker: Id, asks: seq<Id>,
                                         c: Cursor)
    requires Queued(f, markets, req, taker, asks, c) && req.side.Buy?
    requires ValidMakers(f, asks) && req.player in f.accounts
    ensures match BuyLoop(f, req, taker, asks, c)
            case Err(_) => true
            case Ok((g, d)) => Served(f, g, d, req, taker, asks)
    decreases |asks|
  {
    hide Queued; hide BuyFill; hide Served; hide Makers; hide Sum; hide Total; hide FillShape;
    QueuedFacts(f, markets, req, taker, asks, c);
    if asks == [] || c.remaining == 0 {
      ServedNone(f, c, req, taker, asks);
    } else {
      BuyServes(f, markets, req, taker, asks, c);
      var ask := f.orders[asks[0]];
      var fill := BuyQuantity(f, req, ask, c.remaining);
      if fill <= 0 {
        ServedNone(f, c, req, taker, asks);
      } else {
        var r := BuyFill(f, req, taker, asks[0], fill);
        if r.Ok? {
          var g, d := r.value, Advance(c, ask.price, fill);
          QueuedFacts(g, markets, req, taker, asks[1..], d);
          BuyLoopServes(g, markets, req, taker, asks[1..], d);
          if fill < ask.remaining && fill < c.remaining {
            OutOfMoney(g, req, taker, asks[1..], d, ask.price);
          }
          var s := BuyLoop(g, req, taker, asks[1..], d);
          if s.Ok? {
            ServedStep(f, g, s.value.0, s.value.1, markets, req, taker, asks, fill);
          }
        }
      }
    }
  }

  lemma SellServes(f: Floor, markets: seq<Venue>, req: Request, taker: Id, bids: seq<Id>, c: Cursor)
    requires Queued(f, markets, req, taker, bids, c) && req.side.Sell? && bids != [] && 0 < c.remaining
    ensures bids[0] < |f.orders| && 0 < f.orders[bids[0]].remaining
    ensures var bid := f.orders[bids[0]];
            var fill := Min(c.remaining, bid.remaining);
            match SellFill(f, req, taker, bids[0], fill)
            case Err(_) => true
            case Ok(g) => FillShape(f, g, taker, bids[0], fill)
                          && Queued(g, markets, req, taker, bids[1..], Advance(c, bid.price, fill))
  {
    hide Running; hide Progress; hide ValidMakers; hide SellFill; hide Sum; hide Total;
    SellStep(f, markets, req, taker, bids, c);
    NextMaker(f, markets, req, taker, bids, c);
    var bid := f.orders[bids[0]];
    var fill := Min(c.remaining, bid.remaining);
    var r := SellFill(f, req, taker, bids[0], fill);
    if r.Ok? {
      var g, d := r.value, Advance(c, bid.price, fill);
      OrderedAfterFill(f, g, Buy, taker, bids, fill);
      MakersAreValid(g, markets, req, taker, bids[1..], d);
      RunningBalance(g, markets, req, taker, bids[1..], d);
    }
  }

  /** A sell serves the dearest, oldest bids first. */
  lemma {:induction false} SellLoopServes(f: Floor, markets: seq<Venue>, req: Request, taker: Id, bids: seq<Id>,
                                          c: Cursor)
    requires Queued(f, markets, req, taker, bids, c) && req.side.Sell?
    requires ValidMakers(f, bids)
    ensures match SellLoop(f, req, taker, bids, c)
            case Err(_) => true
            case Ok((g, d)) => Served(f, g, d, req, taker, bids)
    decreases |bids|
  {
    hide Queued; hide SellFill; hide Served; hide Makers; hide Sum; hide Total; hide FillShape;
    QueuedFacts(f, markets, req, taker, bids, c);
    if bids == [] || c.remaining == 0 {
      ServedNone(f, c, req, taker, bids);
    } else {
      SellServes(f, markets, req, taker, bids, c);
      var bid := f.orders[bids[0]];
      var fill := Min(c.remaining, bid.remaining);
      var r := SellFill(f, req, taker, bids[0], fill);
      if r.Ok? {
        var g, d := r.value, Advance(c, bid.price, fill);
        QueuedFacts(g, markets, req, taker, bids[1..], d);
        SellLoopServes(g, markets, req, taker, bids[1..], d);
        var s := SellLoop(g, req, taker, bids[1..], d);
        if s.Ok? {
          ServedStep(f, g, s.value.0, s.value.1, markets, req, taker, bids, fill);
        }
      }
    }
  }

  /** A loop entered with a fresh order finds its queue in order. */
  lemma OpenedIsQueued(f: Floor, g: Floor, markets: seq<Venue>, req: Request)
    requires Sound(f, markets, -1) && ValidOrder(req) && req.market < |markets|
    requires (if req.side.Buy? then OpenBuy(f, req) else OpenSell(f, req)) == Ok(g)
    ensures Queued(g, markets, req, |f.orders|,
                   Candidates(g.orders, markets, MakerQuery(req, markets[req.market].book)), Cursor(req.quantity, 0, 0))
  {
    hide Sum; hide Total; hide Sound; hide Running; hide ValidMakers; hide OpenBuy; hide OpenSell; hide Ordered;
    hide SameHoldings;
    if req.side.Buy? { OpenBuyReady(f, g, markets, req); } else { OpenSellReady(f, g, markets, req); }
    OpenedRuns(f, g, markets, req, |f.orders|);
    var q := MakerQuery(req, markets[req.market].book);
    SelectIsPriceTime(g.orders, markets, q, |g.orders|);
    RunningBalance(g, markets, req, |f.orders|, Candidates(g.orders, markets, q), Cursor(req.quantity, 0, 0));
  }

  /** The queue an order meets: the eligible orders and no others, best price first, then oldest first. */
  ghost predicate PriceTimeQueue(orders: seq<Order>, markets: seq<Venue>, q: Query, ids: seq<Id>)
  {
    && Ordered(orders, q.side, ids)
    && forall i: nat :: i < |orders| ==> (i in ids <==> Eligible(orders[i], markets, q))
  }

  lemma CandidatesAreTheQueue(orders: seq<Order>, markets: seq<Venue>, q: Query)
    ensures PriceTimeQueue(orders, markets, q, Candidates(orders, markets, q))
  {
    SelectIsPriceTime(orders, markets, q, |orders|);
    var ids := Candidates(orders, markets, q);
    assert forall i :: i in ids ==> exists k :: 0 <= k < |ids| && ids[k] == i;
  }

  /**
   Who is in the queue of an incoming order: every limit order of another player on the other side
   of the book that is open or partly filled, at the order's own limit or better if it has one.
   */
  lemma QueueMembers(orders: seq<Order>, markets: seq<Venue>, req: Request)
    requires req.market < |markets|
    ensures var ids := Candidates(orders, markets, MakerQuery(req, markets[req.market].book));
            forall i: nat :: i in ids <==>
              && i < |orders| && orders[i].kind.Limit? && (orders[i].status.Open? || orders[i].status.Partial?)
              && orders[i].side != req.side && orders[i].owner != req.player
              && orders[i].market < |markets| && markets[orders[i].market].book == markets[req.market].book
              && (req.kind.Limit? ==>
                    if req.side.Buy? then orders[i].price <= req.price else orders[i].price >= req.price)
  {
    hide Candidates;
    CandidatesAreTheQueue(orders, markets, MakerQuery(req, markets[req.market].book));
  }

  /** No more units, or a market buy whose balance does not pay for one more at this price. */
  predicate Done(req: Request, x: Execution, price: int)
  {
    x.filled == req.quantity || (req.side.Buy? && req.kind.Market? && x.balance < price)
  }

  function TradeWith(f: Floor, req: Request, x: Execution, maker: Id, quantity: int): Trade
    requires maker < |f.orders|
  {
    var m := f.orders[maker];
    if req.side.Buy? then Trade(req.market, x.order, maker, req.player, m.owner, m.price, quantity)
    else Trade(req.market, maker, x.order, m.owner, req.player, m.price, quantity)
  }

  /** Trade `j` of a committed order is with order `j` of the queue; one left with a rest is the last. */
  predicate TradedAt(f: Floor, k: Floor, req: Request, x: Execution, ids: seq<Id>, j: nat)
  {
    && j < |ids| && ids[j] < |f.orders| && |f.trades| + j < |k.trades|
    && var t := k.trades[|f.trades| + j];
    && t == TradeWith(f, req, x, ids[j], t.quantity)
    && 0 < t.quantity <= f.orders[ids[j]].remaining
    && (t.quantity < f.orders[ids[j]].remaining ==> j == Fills(f, k) - 1 && Done(req, x, t.price))
  }

  /** Order `j` of the queue was not traded with; the first such because the incoming order was done. */
  predicate PassedOver(f: Floor, k: Floor, req: Request, x: Execution, ids: seq<Id>, j: nat)
  {
    && j < |ids| && ids[j] < |f.orders| && ids[j] < |k.orders| && k.orders[ids[j]] == f.orders[ids[j]]
    && (j == Fills(f, k) ==> Done(req, x, f.orders[ids[j]].price))
  }

  /**
   Price-time priority of a committed order: its trades are with the first orders of the queue
   as it stood before, in that order and at their prices; only the last may be left with a
   rest; and the next in the queue was not traded with because the order was done.
   */
  ghost predicate InPriority(f: Floor, k: Floor, req: Request, x: Execution, ids: seq<Id>)
  {
    var n := Fills(f, k);
    && |f.orders| < |k.orders| && 0 <= n <= |ids| && f.trades <= k.trades
    && (forall j: nat :: j < n ==> TradedAt(f, k, req, x, ids, j))
    && (forall j: nat :: n <= j < |ids| ==> PassedOver(f, k, req, x, ids, j))
  }

  lemma QueueBeforeInsertion(f: Floor, g: Floor, markets: seq<Venue>, req: Request, o: Order, ids: seq<Id>, q: Query)
    requires g.orders == f.orders + [o] && o.owner == q.taker
    requires PriceTimeQueue(g.orders, markets, q, ids)
    ensures PriceTimeQueue(f.orders, markets, q, ids)
  {
    forall j | 0 <= j < |ids|
      ensures ids[j] < |f.orders|
    {
      assert ids[j] in ids && Eligible(g.orders[ids[j]], markets, q);
    }
    forall i, j | 0 <= i < j < |ids|
      ensures Before(f.orders, q.side, ids[i], ids[j])
    {
      assert Before(g.orders, q.side, ids[i], ids[j]);
    }
  }

  lemma ServedInPriority(f: Floor, g: Floor, h: Floor, k: Floor, d: Cursor, req: Request, x: Execution, ids: seq<Id>)
    requires g.orders == f.orders + [NewOrder(req, Prepaid(req) * req.quantity)] && g.trades == f.trades
    requires Served(g, h, d, req, |f.orders|, ids) && d.remaining + d.filled == req.quantity
    requires forall j :: 0 <= j < |ids| ==> ids[j] < |f.orders|
    requires k.trades == h.trades && k.accounts == h.accounts && |k.orders| == |h.orders|
    requires forall i: nat :: i < |f.orders| ==> k.orders[i] == h.orders[i]
    requires x.order == |f.orders| && x.filled == d.filled
    requires req.player in k.accounts && x.balance == k.accounts[req.player]
    ensures InPriority(f, k, req, x, ids)
  {
    hide Served; hide TradedAt; hide PassedOver; hide FilledAt; hide LeftAt;
    ServedBounds(g, h, d, req, |f.orders|, ids);
    forall j: nat | j < |ids|
      ensures j < Fills(f, k) ==> TradedAt(f, k, req, x, ids, j)
      ensures Fills(f, k) <= j ==> PassedOver(f, k, req, x, ids, j)
    {
      ServedAt(g, h, d, req, |f.orders|, ids, j);
      SameInPriority(f, g, h, k, d, req, x, ids, j);
    }
  }

  /** Seen from the committed floor, one order of the queue fared as the loop left it. */
  lemma SameInPriority(f: Floor, g: Floor, h: Floor, k: Floor, d: Cursor, req: Request, x: Execution, ids: seq<Id>,
                       j: nat)
    requires g.orders == f.orders + [NewOrder(req, Prepaid(req) * req.quantity)] && g.trades == f.trades
    requires j < |ids| && ids[j] < |f.orders| && d.remaining + d.filled == req.quantity
    requires k.trades == h.trades && k.accounts == h.accounts && |f.orders| < |k.orders| == |h.orders|
    requires forall i: nat :: i < |f.orders| ==> k.orders[i] == h.orders[i]
    requires x.order == |f.orders| && x.filled == d.filled
    requires req.player in k.accounts && x.balance == k.accounts[req.player]
    ensures FilledAt(g, h, d, req, |f.orders|, ids, j) ==> TradedAt(f, k, req, x, ids, j)
    ensures LeftAt(g, h, d, req, ids, j) ==> PassedOver(f, k, req, x, ids, j)
  {
    assert g.orders[ids[j]] == f.orders[ids[j]];
  }

  lemma SameQueueAfterInsertion(f: Floor, g: Floor, markets: seq<Venue>, req: Request, o: Order)
    requires g.orders == f.orders + [o] && o.owner == req.player && req.market < |markets|
    ensures var q := MakerQuery(req, markets[req.market].book);
            Candidates(g.orders, markets, q) == Candidates(f.orders, markets, q)
  {
    var q := MakerQuery(req, markets[req.market].book);
    CandidatesAreTheQueue(g.orders, markets, q);
    CandidatesAreTheQueue(f.orders, markets, q);
    var ids := Candidates(g.orders, markets, q);
    QueueBeforeInsertion(f, g, markets, req, o, ids, q);
    forall x
      ensures x in ids <==> x in Candidates(f.orders, markets, q)
    {
      if x in ids { var j :| 0 <= j < |ids| && ids[j] == x; }
    }
    PriceTimeIsUnique(f.orders, q.side, ids, Candidates(f.orders, markets, q));
  }

  /** Whole buys have price-time priority. */
  lemma BuyHasPriority(f: Floor, markets: seq<Venue>, req: Request)
    requires Sound(f, markets, -1) && ValidOrder(req) && req.side.Buy? && PricedRows(f)
    ensures match PlaceBuy(f, markets, req)
            case Err(_) => true
            case Ok((k, x)) =>
              && req.market < |markets|
              && var q := MakerQuery(req, markets[req.market].book);
              && PriceTimeQueue(f.orders, markets, q, Candidates(f.orders, markets, q))
              && InPriority(f, k, req, x, Candidates(f.orders, markets, q))
  {
    hide Sum; hide Total; hide Sound; hide PriceTimeQueue; hide Served; hide OpenBuy; hide Running; hide InPriority;
    hide Candidates; hide PricedRows; hide SameHoldings; hide BuyLoop; hide Matched; hide ValidMakers; hide Queued;
    hide Executed; hide UnclosedRow;
    if PlaceBuy(f, markets, req).Ok? {
      var g := OpenBuy(f, req).value;
      var q := MakerQuery(req, markets[req.market].book);
      var c := Cursor(req.quantity, 0, 0);
      var ids := Candidates(g.orders, markets, q);
      OpenBuyReady(f, g, markets, req);
      SameQueueAfterInsertion(f, g, markets, req, NewOrder(req, Prepaid(req) * req.quantity));
      OpenedIsQueued(f, g, markets, req);
      QueuedFacts(g, markets, req, |f.orders|, ids, c);
      BuyLoopServes(g, markets, req, |f.orders|, ids, c);
      var (h, d) := BuyLoop(g, req, |f.orders|, ids, c).value;
      OpenedRuns(f, g, markets, req, |f.orders|);
      BuyLoopMatches(g, markets, req, |f.orders|, ids, c);
      MatchedBalances(g, c, h, d, markets, req, |f.orders|, ids);
      CandidatesAreTheQueue(g.orders, markets, q);
      QueueBeforeInsertion(f, g, markets, req, NewOrder(req, Prepaid(req) * req.quantity), ids, q);
      QueueInRange(f.orders, markets, q, ids);
      var (k, x) := PlaceBuy(f, markets, req).value;
      ServedInPriority(f, g, h, k, d, req, x, ids);
    }
  }

  lemma QueueInRange(orders: seq<Order>, markets: seq<Venue>, q: Query, ids: seq<Id>)
    requires PriceTimeQueue(orders, markets, q, ids)
    ensures forall j :: 0 <= j < |ids| ==> ids[j] < |orders|
  {
  }

  lemma MatchedBalances(g: Floor, c: Cursor, h: Floor, d: Cursor, markets: seq<Venue>, req: Request, taker: Id,
                        ids: seq<Id>)
    requires Matched(g, c, Ok((h, d)), markets, req, taker, ids)
    ensures d.remaining + d.filled == c.remaining + c.filled && taker < |h.orders| == |g.orders|
    ensures req.player in h.accounts
  {
  }

  /** Whole sells have price-time priority. */
  lemma SellHasPriority(f: Floor, markets: seq<Venue>, req: Request)
    requires Sound(f, markets, -1) && ValidOrder(req) && req.side.Sell? && PricedRows(f)
    ensures match PlaceSell(f, markets, req)
            case Err(_) => true
            case Ok((k, x)) =>
              && req.market < |markets|
              && var q := MakerQuery(req, markets[req.market].book);
              && PriceTimeQueue(f.orders, markets, q, Candidates(f.orders, markets, q))
              && InPriority(f, k, req, x, Candidates(f.orders, markets, q))
  {
    hide Sum; hide Total; hide Sound; hide PriceTimeQueue; hide Served; hide OpenSell; hide Running; hide InPriority;
    hide Candidates; hide PricedRows; hide SameHoldings; hide SellLoop; hide Matched; hide ValidMakers; hide Queued;
    if PlaceSell(f, markets, req).Ok? {
      var g := OpenSell(f, req).value;
      var q := MakerQuery(req, markets[req.market].book);
      var c := Cursor(req.quantity, 0, 0);
      var ids := Candidates(g.orders, markets, q);
      OpenSellReady(f, g, markets, req);
      SameQueueAfterInsertion(f, g, markets, req, NewOrder(req, 0));
      OpenedIsQueued(f, g, markets, req);
      QueuedFacts(g, markets, req, |f.orders|, ids, c);
      SellLoopServes(g, markets, req, |f.orders|, ids, c);
      var (h, d) := SellLoop(g, req, |f.orders|, ids, c).value;
      OpenedRuns(f, g, markets, req, |f.orders|);
      SellLoopMatches(g, markets, req, |f.orders|, ids, c);
      MatchedBalances(g, c, h, d, markets, req, |f.orders|, ids);
      CandidatesAreTheQueue(g.orders, markets, q);
      QueueBeforeInsertion(f, g, markets, req, NewOrder(req, 0), ids, q);
      QueueInRange(f.orders, markets, q, ids);
      var (k, x) := PlaceSell(f, markets, req).value;
      ServedInPriority(f, g, h, k, d, req, x, ids);
    }
  }
}
