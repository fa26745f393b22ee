/**
 The matching engine as functions of the tables: price-time selection, the two matching
 loops, order placement, cancellation and the funding estimate. `Err` is an aborted transaction.
 */
module Matching {
  import opened Sums
  import opened Domain

  // ----- balances -----

  function Balance(f: Floor, p: Player): Result<int>
  {
    if p in f.accounts then Ok(f.accounts[p]) else Err(AccountMissing)
  }

  /** Adds `amount` to one account and appends the ledger entry. */
  function Move(f: Floor, p: Player, amount: int, reason: LedgerReason, reference: Option<Id>): Floor
    requires p in f.accounts
  {
    f.(accounts := f.accounts[p := f.accounts[p] + amount],
       ledger := f.ledger + [Entry(p, amount, reason, reference)])
  }

  /** `credit`; a sum outside the BIGINT range makes the update fail. */
  function Credit(f: Floor, p: Player, amount: int, reason: LedgerReason, reference: Option<Id>): Result<Floor>
  {
    if amount < 0 then Err(NegativeAmount)
    else if amount == 0 then Ok(f)
    else if p !in f.accounts then Err(AccountMissing)
    else if f.accounts[p] + amount > INT64_MAX then Err(BalanceOverflow)
    else Ok(Move(f, p, amount, reason, reference))
  }

  /** `debit`. */
  function Debit(f: Floor, p: Player, amount: int, reason: LedgerReason, reference: Option<Id>): Result<Floor>
  {
    if amount < 0 then Err(NegativeAmount)
    else if amount == 0 then Ok(f)
    else if p !in f.accounts || f.accounts[p] < amount then Err(InsufficientBalance)
    else Ok(Move(f, p, -amount, reason, reference))
  }

  function AddDelivery(f: Floor, p: Player, market: Id, quantity: int, reason: DeliveryReason): Floor
  {
    if quantity <= 0 then f
    else f.(deliveries := f.deliveries + [Delivery(p, market, quantity, 0, 0, reason)])
  }

  // ----- the book -----

  /** Only LIMIT rows that are OPEN or PARTIAL rest in a book. */
  predicate Resting(o: Order)
  {
    o.kind.Limit? && (o.status.Open? || o.status.Partial?)
  }

  predicate InBook(markets: seq<Venue>, market: Id, book: Id)
  {
    market < |markets| && markets[market].book == book
  }

  /** What an incoming order looks for: resting orders of `side` in `book`, not its own, within `limit`. */
  datatype Query = Query(book: Id, side: Side, taker: Player, limit: Option<int>)

  predicate WithinLimit(side: Side, price: int, limit: Option<int>)
  {
    match limit
    case None => true
    case Some(l) => if side.Sell? then price <= l else price >= l
  }

  predicate Eligible(o: Order, markets: seq<Venue>, q: Query)
  {
    && Resting(o) && o.side == q.side && InBook(markets, o.market, q.book)
    && o.owner != q.taker && WithinLimit(q.side, o.price, q.limit)
  }

  /** Asks are better when cheaper, bids when dearer. */
  predicate Better(side: Side, p: int, q: int)
  {
    if side.Sell? then p < q else p > q
  }

  /** Puts a younger order behind everything at least as well priced. */
  function Enqueue(orders: seq<Order>, side: Side, ids: seq<Id>, id: Id): seq<Id>
    requires id < |orders|
    requires forall k :: 0 <= k < |ids| ==> ids[k] < |orders|
  {
    if ids == [] || Better(side, orders[id].price, orders[ids[0]].price) then [id] + ids
    else [ids[0]] + Enqueue(orders, side, ids[1..], id)
  }

  /** `SELECT … ORDER BY price, id` over the first `n` orders. */
  function Select(orders: seq<Order>, markets: seq<Venue>, q: Query, n: nat): (ids: seq<Id>)
    requires n <= |orders|
    ensures forall k :: 0 <= k < |ids| ==> ids[k] < n && Eligible(orders[ids[k]], markets, q)
  {
    if n == 0 then []
    else
      var ids := Select(orders, markets, q, n - 1);
      if Eligible(orders[n - 1], markets, q) then
        (EnqueueMembers(orders, q.side, ids, n - 1);
         var longer := Enqueue(orders, q.side, ids, n - 1);
         assert forall k :: 0 <= k < |longer| ==> longer[k] in longer;
         longer)
      else ids
  }

  lemma {:induction false} EnqueueMembers(orders: seq<Order>, side: Side, ids: seq<Id>, id: Id)
    requires id < |orders|
    requires forall k :: 0 <= k < |ids| ==> ids[k] < |orders|
    ensures |Enqueue(orders, side, ids, id)| == |ids| + 1
    ensures forall x :: x in Enqueue(orders, side, ids, id) <==> x == id || x in ids
  {
    if !(ids == [] || Better(side, orders[id].price, orders[ids[0]].price)) {
      EnqueueMembers(orders, side, ids[1..], id);
      assert ids == [ids[0]] + ids[1..];
    }
  }

  function Candidates(orders: seq<Order>, markets: seq<Venue>, q: Query): (ids: seq<Id>)
    ensures forall k :: 0 <= k < |ids| ==> ids[k] < |orders| && Eligible(orders[ids[k]], markets, q)
  {
    Select(orders, markets, q, |orders|)
  }

  // ----- matching -----

  datatype Cursor = Cursor(remaining: int, filled: int, gross: int)

  /** The row of a resting order after `q` units of it traded. */
  function AfterFill(o: Order, q: int): Order
  {
    o.(remaining := o.remaining - q,
       reserved := if o.side.Buy? then o.reserved - o.price * q else o.reserved,
       status := if o.remaining - q == 0 then Filled else Partial)
  }

  /** Units an incoming buy takes from one ask; a market buy also stops at what its balance affords. */
  function BuyQuantity(f: Floor, req: Request, ask: Order, remaining: int): int
    requires ask.price > 0 && req.player in f.accounts
  {
    var fill := Min(remaining, ask.remaining);
    if req.kind.Market? then Min(fill, f.accounts[req.player] / ask.price) else fill
  }

  /** A market buy pays for the fill now; a limit buy gets back what it reserved above the ask's price. */
  function BuyPay(f: Floor, req: Request, taker: Id, ask: Order, fill: int): Result<Floor>
  {
    if req.kind.Market? then
      var cost :- Product(ask.price, fill);
      Debit(f, req.player, cost, MarketBuyTrade, Some(taker))
    else
      var refund :- Product(req.price - ask.price, fill);
      Credit(f, req.player, refund, PriceImprovementRefund, Some(taker))
  }

  /** Reduces the ask, pays its owner, and records the buyer's delivery and the trade. */
  function BuySettle(f: Floor, req: Request, taker: Id, id: Id, fill: int): Result<Floor>
    requires id < |f.orders|
  {
    var ask := f.orders[id];
    var reduced := f.(orders := f.orders[id :=
      ask.(remaining := ask.remaining - fill, status := if ask.remaining - fill == 0 then Filled else Partial)]);
    var cost :- Product(ask.price, fill);
    var settled :- Credit(reduced, ask.owner, cost, TradeProceeds, Some(id));
    var delivered := AddDelivery(settled, req.player, req.market, fill, TradeBuy);
    Ok(delivered.(trades := delivered.trades
         + [Trade(req.market, taker, id, req.player, ask.owner, ask.price, fill)]))
  }

  /** Settles `fill` units of ask `id` for the buyer of order `taker`. */
  function BuyFill(f: Floor, req: Request, taker: Id, id: Id, fill: int): (r: Result<Floor>)
    requires id < |f.orders|
    ensures r.Ok? ==> |r.value.orders| == |f.orders| && r.value.accounts.Keys == f.accounts.Keys
    ensures r.Ok? ==> forall i :: 0 <= i < |f.orders| ==> r.value.orders[i].price == f.orders[i].price
  {
    var paid :- BuyPay(f, req, taker, f.orders[id], fill);
    BuySettle(paid, req, taker, id, fill)
  }

  predicate ValidMakers(f: Floor, ids: seq<Id>)
  {
    forall k :: 0 <= k < |ids| ==> ids[k] < |f.orders| && f.orders[ids[k]].price > 0
  }

  function BuyLoop(f: Floor, req: Request, taker: Id, asks: seq<Id>, c: Cursor): (r: Result<(Floor, Cursor)>)
    requires ValidMakers(f, asks) && req.player in f.accounts
    ensures r.Ok? ==> |r.value.0.orders| == |f.orders| && r.value.0.accounts.Keys == f.accounts.Keys
    decreases |asks|
  {
    if asks == [] || c.remaining == 0 then Ok((f, c))
    else
      var ask := f.orders[asks[0]];
      var fill := BuyQuantity(f, req, ask, c.remaining);
      if req.kind.Market? && fill <= 0 then Ok((f, c))
      else
        var g :- BuyFill(f, req, taker, asks[0], fill);
        BuyLoop(g, req, taker, asks[1..],
                Cursor(c.remaining - fill, c.filled + fill, c.gross + ask.price * fill))
  }

  /** Settles `fill` units of bid `id` for the seller of order `taker`. */
  function SellFill(f: Floor, req: Request, taker: Id, id: Id, fill: int): (r: Result<Floor>)
    requires id < |f.orders|
    ensures r.Ok? ==> |r.value.orders| == |f.orders| && r.value.accounts.Keys == f.accounts.Keys
    ensures r.Ok? ==> forall i :: 0 <= i < |f.orders| ==> r.value.orders[i].price == f.orders[i].price
  {
    var bid := f.orders[id];
    var cost :- Product(bid.price, fill);
    var reservedAfter := bid.reserved - cost;
    if reservedAfter < 0 then Err(ReserveInvariant)
    else
      var reduced := f.(orders := f.orders[id :=
        bid.(remaining := bid.remaining - fill, reserved := reservedAfter,
             status := if bid.remaining - fill == 0 then Filled else Partial)]);
      var settled :- Credit(reduced, req.player, cost, TradeProceeds, Some(taker));
      var delivered := AddDelivery(settled, bid.owner, req.market, fill, TradeBuy);
      Ok(delivered.(trades := delivered.trades
           + [Trade(req.market, id, taker, bid.owner, req.player, bid.price, fill)]))
  }

  function SellLoop(f: Floor, req: Request, taker: Id, bids: seq<Id>, c: Cursor): (r: Result<(Floor, Cursor)>)
    requires ValidMakers(f, bids)
    ensures r.Ok? ==> |r.value.0.orders| == |f.orders| && r.value.0.accounts.Keys == f.accounts.Keys
    decreases |bids|
  {
    if bids == [] || c.remaining == 0 then Ok((f, c))
    else
      var bid := f.orders[bids[0]];
      var fill := Min(c.remaining, bid.remaining);
      var g :- SellFill(f, req, taker, bids[0], fill);
      SellLoop(g, req, taker, bids[1..],
               Cursor(c.remaining - fill, c.filled + fill, c.gross + bid.price * fill))
  }

  // ----- orders -----

  function ActiveBook(markets: seq<Venue>, market: Id): Result<Id>
  {
    if market >= |markets| then Err(MarketMissing)
    else if !markets[market].active then Err(MarketInactive)
    else Ok(markets[market].book)
  }

  function TakerStatus(kind: OrderType, quantity: int, c: Cursor): OrderStatus
  {
    if kind.Market? then
      (if c.filled == quantity then Filled else if c.filled > 0 then Partial else Canceled)
    else
      (if c.remaining == 0 then Filled else if c.filled > 0 then Partial else Open)
  }

  function NewOrder(req: Request, reserved: int): Order
  {
    Order(req.market, req.player, req.side, req.kind, if req.kind.Limit? then req.price else 0,
          req.quantity, req.quantity, reserved, Open)
  }

  /** The final UPDATE of the incoming order's own row. */
  function CloseTaker(f: Floor, req: Request, taker: Id, c: Cursor, reserved: int): Floor
    requires taker < |f.orders|
  {
    f.(orders := f.orders[taker := f.orders[taker].(
         remaining := if req.kind.Limit? then c.remaining else 0,
         reserved := reserved,
         status := TakerStatus(req.kind, req.quantity, c))])
  }

  function Report(f: Floor, req: Request, taker: Id, c: Cursor): Execution
    requires req.player in f.accounts
  {
    Execution(taker, req.quantity, c.filled, if req.kind.Limit? then c.remaining else 0, c.gross,
              f.accounts[req.player])
  }

  function LimitOf(req: Request): Option<int>
  {
    if req.kind.Limit? then Some(req.price) else None
  }

  /** The query an incoming order runs against the opposite side of its book. */
  function MakerQuery(req: Request, book: Id): Query
  {
    Query(book, if req.side.Buy? then Sell else Buy, req.player, LimitOf(req))
  }

  /** Money a buy sets aside before matching. */
  function BuyReserve(f: Floor, req: Request): Result<int>
    requires req.player in f.accounts
  {
    if req.kind.Market? then Ok(0)
    else
      var r :- Product(req.price, req.quantity);
      if f.accounts[req.player] < r then Err(InsufficientBalance) else Ok(r)
  }

  /** The tables right before the buy loop: the order inserted and its reserve debited. */
  function OpenBuy(f: Floor, req: Request): Result<Floor>
  {
    var _ :- Balance(f, req.player);
    var reserved :- BuyReserve(f, req);
    var inserted := f.(orders := f.orders + [NewOrder(req, reserved)]);
    Debit(inserted, req.player, reserved, BuyOrderReserve, Some(|f.orders|))
  }

  /** Keeps in reserve only what the unfilled units may still cost. */
  function CloseBuy(f: Floor, req: Request, taker: Id, c: Cursor): Result<(Floor, Execution)>
    requires taker < |f.orders| && req.player in f.accounts
  {
    var reserved :- if req.kind.Limit? then Product(req.price, c.remaining) else Ok(0);
    var done := CloseTaker(f, req, taker, c, reserved);
    Ok((done, Report(done, req, taker, c)))
  }

  predicate PricedRows(f: Floor)
  {
    forall i :: 0 <= i < |f.orders| && Resting(f.orders[i]) ==> f.orders[i].price > 0
  }

  /** `placeBuy`. */
  function PlaceBuy(f: Floor, markets: seq<Venue>, req: Request): Result<(Floor, Execution)>
    requires PricedRows(f) && (req.kind.Limit? ==> req.price > 0)
  {
    var book :- ActiveBook(markets, req.market);
    var start :- OpenBuy(f, req);
    var taker := |f.orders|;
    var asks := Candidates(start.orders, markets, MakerQuery(req, book));
    var matched :- BuyLoop(start, req, taker, asks, Cursor(req.quantity, 0, 0));
    CloseBuy(matched.0, req, taker, matched.1)
  }

  function OpenSell(f: Floor, req: Request): Result<Floor>
  {
    var _ :- Balance(f, req.player);
    Ok(f.(orders := f.orders + [NewOrder(req, 0)]))
  }

  /** `placeSellLocked`. */
  function PlaceSell(f: Floor, markets: seq<Venue>, req: Request): Result<(Floor, Execution)>
    requires PricedRows(f) && (req.kind.Limit? ==> req.price > 0)
  {
    var book :- ActiveBook(markets, req.market);
    var start :- OpenSell(f, req);
    var taker := |f.orders|;
    var bids := Candidates(start.orders, markets, MakerQuery(req, book));
    var matched :- SellLoop(start, req, taker, bids, Cursor(req.quantity, 0, 0));
    var c := matched.1;
    var returned := if req.kind.Market?
      then AddDelivery(matched.0, req.player, req.market, c.remaining, MarketRemainder)
                    else matched.0;
    var done := CloseTaker(returned, req, taker, c, returned.orders[taker].reserved);
    Ok((done, Report(done, req, taker, c)))
  }

  /** Refunds or returns what a resting order still holds and marks it CANCELED. */
  function Release(f: Floor, id: Id, refund: LedgerReason, back: DeliveryReason): (r: Result<Floor>)
    requires id < |f.orders|
    ensures r.Ok? ==> |r.value.orders| == |f.orders|
  {
    var o := f.orders[id];
    var g :- if o.side.Buy? then Credit(f, o.owner, o.reserved, refund, Some(id))
             else Ok(AddDelivery(f, o.owner, o.market, o.remaining, back));
    Ok(g.(orders := g.orders[id := o.(remaining := 0, reserved := 0, status := Canceled)]))
  }

  /** `cancelOrder`. */
  function Cancel(f: Floor, id: Id, p: Player, administrator: bool): Result<Floor>
  {
    if id >= |f.orders| then Err(OrderMissing)
    else if !administrator && f.orders[id].owner != p then Err(NotOwner)
    else if !Resting(f.orders[id]) then Err(OrderNotOpen)
    else Release(f, id, OrderCancelRefund, OrderCanceled)
  }

  /** The resting orders placed through one market, in id order. */
  function RestingOf(orders: seq<Order>, market: Id, n: nat): (ids: seq<Id>)
    requires n <= |orders|
    ensures forall k :: 0 <= k < |ids| ==> ids[k] < n && Resting(orders[ids[k]]) && orders[ids[k]].market == market
    ensures forall j, k :: 0 <= j < k < |ids| ==> ids[j] < ids[k]
    ensures forall i :: 0 <= i < n && Resting(orders[i]) && orders[i].market == market ==> i in ids
  {
    if n == 0 then []
    else
      var ids := RestingOf(orders, market, n - 1);
      if Resting(orders[n - 1]) && orders[n - 1].market == market then ids + [n - 1] else ids
  }

  /** The settlement loop of `retireMarket`. */
  function ReleaseAll(f: Floor, ids: seq<Id>): Result<Floor>
    requires forall k :: 0 <= k < |ids| ==> ids[k] < |f.orders|
    decreases |ids|
  {
    if ids == [] then Ok(f)
    else
      var g :- Release(f, ids[0], MarketCloseRefund, MarketClosed);
      ReleaseAll(g, ids[1..])
  }

  // ----- funding -----

  /** The loop of `buyFundingRequired` over the asks it selected. */
  function FundingLoop(orders: seq<Order>, asks: seq<Id>, remaining: int, required: int): Result<int>
    requires forall k :: 0 <= k < |asks| ==> asks[k] < |orders|
    decreases |asks|
  {
    if asks == [] || remaining == 0 then Ok(required)
    else
      var fill := Min(remaining, orders[asks[0]].remaining);
      var cost :- Product(orders[asks[0]].price, fill);
      if required > INT64_MAX - cost then Err(FundingTooLarge)
      else FundingLoop(orders, asks[1..], remaining - fill, required + cost)
  }

  /** `buyFundingRequired`, after the request was validated. */
  function BuyFunding(f: Floor, markets: seq<Venue>, req: Request): Result<int>
  {
    if req.side.Sell? then Err(NotABuy)
    else if req.market >= |markets| || !markets[req.market].active then Err(MarketInactive)
    else if req.kind.Limit? then Product(req.price, req.quantity)
    else FundingLoop(f.orders, Candidates(f.orders, markets, MakerQuery(req, markets[req.market].book)), req.quantity,
                     0)
  }
}
