/**
 What the trading tables satisfy between transactions, and what a single fill does to them.
 */
module Settlement {
  import opened Sums
  import opened Domain
  import opened Matching

  // ----- weights -----

  function DeltaOf(p: Player): Entry -> int { (e: Entry) => if e.player == p then e.delta else 0 }

  function OpenReserve(): Order -> int
  {
    (o: Order) => if o.status.Open? || o.status.Partial? then o.reserved else 0
  }

  function ReserveOf(p: Player): Order -> int { (o: Order) => if o.owner == p then OpenReserve()(o) else 0 }

  /** Units traded by one order. */
  function UnitsOf(side: Side, id: Id): Trade -> int
  {
    (t: Trade) => if (if side.Buy? then t.buyOrder else t.sellOrder) == id then t.quantity else 0
  }

  /** Cents that changed hands for one order. */
  function ValueOf(side: Side, id: Id): Trade -> int
  {
    (t: Trade) => if (if side.Buy? then t.buyOrder else t.sellOrder) == id then t.price * t.quantity else 0
  }

  /** What a player spent on purchases less what the player earned by sales. */
  function NetSpent(p: Player): Trade -> int
  {
    (t: Trade) =>
      (if t.buyer == p then t.price * t.quantity else 0) - (if t.seller == p then t.price * t.quantity else 0)
  }

  function UnitsBought(p: Player): Trade -> int { (t: Trade) => if t.buyer == p then t.quantity else 0 }

  function UnitsDelivered(p: Player): Delivery -> int
  {
    (d: Delivery) => if d.owner == p && d.reason == TradeBuy then d.quantity else 0
  }

  function OfferedBy(p: Player): Order -> int { (o: Order) => if o.side.Sell? && o.owner == p then o.original else 0 }

  function AskedBy(p: Player): Order -> int { (o: Order) => if o.side.Sell? && o.owner == p then o.remaining else 0 }

  function UnitsSold(p: Player): Trade -> int { (t: Trade) => if t.seller == p then t.quantity else 0 }

  function UnitsReturned(p: Player): Delivery -> int
  {
    (d: Delivery) => if d.owner == p && d.reason != TradeBuy then d.quantity else 0
  }

  function AskUnits(markets: seq<Venue>, book: Id): Order -> int
  {
    (o: Order) => if o.side.Sell? && InBook(markets, o.market, book) then o.remaining else 0
  }

  function OfferedUnits(markets: seq<Venue>, book: Id): Order -> int
  {
    (o: Order) => if o.side.Sell? && InBook(markets, o.market, book) then o.original else 0
  }

  function DeliveryUnits(markets: seq<Venue>, book: Id): Delivery -> int
  {
    (d: Delivery) => if InBook(markets, d.market, book) then d.quantity else 0
  }

  // ----- totals -----

  function BalanceOf(f: Floor, p: Player): int { if p in f.accounts then f.accounts[p] else 0 }

  /** All money inside the exchange: balances plus the reserves of open orders. */
  ghost function Money(f: Floor): int { Total(f.accounts) + Sum(f.orders, OpenReserve()) }

  /** One player's cash, open reserves and net purchases: trading moves money between the three only. */
  function Position(f: Floor, p: Player): int
  {
    BalanceOf(f, p) + Sum(f.orders, ReserveOf(p)) + Sum(f.trades, NetSpent(p))
  }

  /** Units bought by a player that were not turned into a delivery. */
  function Undelivered(f: Floor, p: Player): int
  {
    Sum(f.trades, UnitsBought(p)) - Sum(f.deliveries, UnitsDelivered(p))
  }

  /** Units a player offered for sale that are not on offer any more, yet neither sold nor given back. */
  function Unaccounted(f: Floor, p: Player): int
  {
    Sum(f.orders, OfferedBy(p)) - Sum(f.orders, AskedBy(p)) - Sum(f.trades, UnitsSold(p))
    - Sum(f.deliveries, UnitsReturned(p))
  }

  /** Units of a book held as open asks or as deliveries, beyond what its sell orders brought in. */
  function Surplus(f: Floor, markets: seq<Venue>, book: Id): int
  {
    Sum(f.orders, AskUnits(markets, book)) + Sum(f.deliveries, DeliveryUnits(markets, book))
    - Sum(f.orders, OfferedUnits(markets, book))
  }

  function Traded(f: Floor, id: Id): int
    requires id < |f.orders|
  {
    Sum(f.trades, UnitsOf(f.orders[id].side, id))
  }

  // ----- invariants -----

  ghost predicate BankOk(f: Floor)
  {
    && (forall p :: p in f.accounts ==> 0 <= f.accounts[p] <= INT64_MAX && Sum(f.ledger, DeltaOf(p)) == f.accounts[p])
    && (forall k :: 0 <= k < |f.ledger| ==> f.ledger[k].player in f.accounts)
  }

  /** The columns of one order agree with each other. */
  predicate RowOk(o: Order)
  {
    && 0 < o.original && 0 <= o.remaining <= o.original
    && (o.kind.Limit? ==> 0 < o.price && o.price * o.original <= INT64_MAX)
    && (o.kind.Limit? ==> match o.status
                          case Open => o.remaining == o.original
                          case Partial => 0 < o.remaining < o.original
                          case Filled => o.remaining == 0
                          case Canceled => o.remaining == 0)
    && (o.kind.Market? ==> o.price == 0 && o.remaining == 0 && !o.status.Open?)
    && o.reserved == (if o.kind.Limit? && o.side.Buy? then o.price * o.remaining else 0)
  }

  /** An order against the units it traded. */
  predicate TradedOk(o: Order, traded: int)
  {
    if o.kind.Limit? && !o.status.Canceled? then o.original == o.remaining + traded
    else if o.kind.Limit? then 0 <= traded < o.original
    else 0 <= traded <= o.original && (o.status.Filled? <==> traded == o.original)
         && (o.status.Canceled? <==> traded == 0)
  }

  /** Every order but the one being matched is settled. */
  ghost predicate RowsOk(f: Floor, except: int)
  {
    forall i: nat :: i < |f.orders| && i != except ==> RowOk(f.orders[i]) && TradedOk(f.orders[i], Traded(f, i))
  }

  ghost predicate Linked(f: Floor, markets: seq<Venue>)
  {
    && (forall i :: 0 <= i < |f.orders| ==> f.orders[i].owner in f.accounts && f.orders[i].market < |markets|)
    && (forall i :: 0 <= i < |f.deliveries| ==> f.deliveries[i].market < |markets| && 0 < f.deliveries[i].quantity)
  }

  predicate SameBook(markets: seq<Venue>, m: Id, n: Id)
  {
    m < |markets| && n < |markets| && markets[m].book == markets[n].book
  }

  /** A trade is at the older order's price, inside both limits, between two players, in one book. */
  predicate TradeOk(orders: seq<Order>, markets: seq<Venue>, t: Trade)
  {
    && t.buyOrder < |orders| && t.sellOrder < |orders| && t.buyOrder != t.sellOrder
    && t.quantity > 0 && t.price > 0
    && var buy, sell := orders[t.buyOrder], orders[t.sellOrder];
    && buy.side.Buy? && sell.side.Sell? && t.buyer == buy.owner && t.seller == sell.owner && t.buyer != t.seller
    && (buy.kind.Limit? ==> t.price <= buy.price) && (sell.kind.Limit? ==> sell.price <= t.price)
    && t.price == (if t.buyOrder < t.sellOrder then buy.price else sell.price)
    && t.market == (if t.buyOrder < t.sellOrder then sell.market else buy.market)
    && SameBook(markets, buy.market, sell.market)
  }

  ghost predicate TradesOk(f: Floor, markets: seq<Venue>)
  {
    forall k :: 0 <= k < |f.trades| ==> TradeOk(f.orders, markets, f.trades[k])
  }

  /** A resting bid and a resting ask of different players in one book. */
  predicate Opposed(bid: Order, ask: Order, markets: seq<Venue>)
  {
    && Resting(bid) && bid.side.Buy? && Resting(ask) && ask.side.Sell?
    && bid.owner != ask.owner && SameBook(markets, bid.market, ask.market)
  }

  /** No book is crossed between different players. */
  ghost predicate Uncrossed(orders: seq<Order>, markets: seq<Venue>, except: int)
  {
    forall i, j | 0 <= i < |orders| && 0 <= j < |orders| && i != except && j != except ::
      Opposed(orders[i], orders[j], markets) ==> orders[i].price < orders[j].price
  }

  /** The invariant while order `except` is being matched; no order is when `except` is -1. */
  ghost predicate Sound(f: Floor, markets: seq<Venue>, except: int)
  {
    && BankOk(f) && RowsOk(f, except) && Linked(f, markets) && TradesOk(f, markets)
    && Uncrossed(f.orders, markets, except)
  }

  // ----- money moves -----

  lemma MoveKeepsBank(f: Floor, p: Player, amount: int, reason: LedgerReason, reference: Option<Id>)
    requires BankOk(f) && p in f.accounts && 0 <= f.accounts[p] + amount <= INT64_MAX
    ensures var g := Move(f, p, amount, reason, reference);
            BankOk(g) && Total(g.accounts) == Total(f.accounts) + amount && g.accounts.Keys == f.accounts.Keys
  {
    hide Sum; hide Total;
    var e := Entry(p, amount, reason, reference);
    var g := Move(f, p, amount, reason, reference);
    TotalUpdate(f.accounts, p, f.accounts[p] + amount);
    forall q | q in g.accounts
      ensures 0 <= g.accounts[q] <= INT64_MAX && Sum(g.ledger, DeltaOf(q)) == g.accounts[q]
    {
      SumAppend(f.ledger, e, DeltaOf(q));
    }
  }

  /** A credit adds exactly its amount to one balance and to the ledger; it fails only on overflow. */
  lemma CreditMoves(f: Floor, p: Player, amount: int, reason: LedgerReason, reference: Option<Id>)
    requires BankOk(f) && p in f.accounts && 0 <= amount
    ensures match Credit(f, p, amount, reason, reference)
            case Ok(g) => && BankOk(g) && Total(g.accounts) == Total(f.accounts) + amount
                          && g.accounts == f.accounts[p := f.accounts[p] + amount]
                          && g == f.(accounts := g.accounts, ledger := g.ledger)
            case Err(e) => e == BalanceOverflow && f.accounts[p] + amount > INT64_MAX
  {
    hide Sum; hide Total;
    if 0 < amount && f.accounts[p] + amount <= INT64_MAX {
      MoveKeepsBank(f, p, amount, reason, reference);
    }
  }

  lemma DebitMoves(f: Floor, p: Player, amount: int, reason: LedgerReason, reference: Option<Id>)
    requires BankOk(f) && p in f.accounts && 0 <= amount
    ensures match Debit(f, p, amount, reason, reference)
            case Ok(g) => && BankOk(g) && Total(g.accounts) == Total(f.accounts) - amount && amount <= f.accounts[p]
                          && g.accounts == f.accounts[p := f.accounts[p] - amount]
                          && g == f.(accounts := g.accounts, ledger := g.ledger)
            case Err(e) => e == InsufficientBalance && f.accounts[p] < amount
  {
    hide Sum; hide Total;
    if 0 < amount <= f.accounts[p] {
      MoveKeepsBank(f, p, -amount, reason, reference);
    }
  }

  // ----- one fill -----

  /** `maker` is a resting order that the order `taker` may trade with. */
  predicate Meets(f: Floor, markets: seq<Venue>, taker: Id, maker: Id)
  {
    && maker < taker < |f.orders|
    && var t, m := f.orders[taker], f.orders[maker];
    && Resting(m) && m.side != t.side && m.owner != t.owner && SameBook(markets, m.market, t.market)
    && (t.kind.Limit? ==> WithinLimit(m.side, m.price, Some(t.price)))
  }

  function FillTrade(f: Floor, taker: Id, maker: Id, q: int): Trade
    requires taker < |f.orders| && maker < |f.orders|
  {
    var t, m := f.orders[taker], f.orders[maker];
    if t.side.Buy? then Trade(t.market, taker, maker, t.owner, m.owner, m.price, q)
    else Trade(t.market, maker, taker, m.owner, t.owner, m.price, q)
  }

  /** Everything a fill does outside the accounts and the ledger. */
  ghost predicate FillShape(f: Floor, g: Floor, taker: Id, maker: Id, q: int)
  {
    && taker < |f.orders| && maker < |f.orders|
    && var t := FillTrade(f, taker, maker, q);
    && g.orders == f.orders[maker := AfterFill(f.orders[maker], q)]
    && g.trades == f.trades + [t]
    && g.deliveries == f.deliveries + [Delivery(t.buyer, t.market, q, 0, 0, TradeBuy)]
    && g.accounts.Keys == f.accounts.Keys
  }

  /** A partly or fully filled resting order is still a well-formed row. */
  lemma AfterFillOk(m: Order, q: int, traded: int)
    requires RowOk(m) && Resting(m) && 0 < q <= m.remaining && TradedOk(m, traded)
    ensures RowOk(AfterFill(m, q)) && TradedOk(AfterFill(m, q), traded + q)
  {
    assert m.price * (m.remaining - q) == m.price * m.remaining - m.price * q;
  }

  lemma FillCountsUnits(f: Floor, g: Floor, markets: seq<Venue>, taker: Id, maker: Id, q: int)
    requires Meets(f, markets, taker, maker) && FillShape(f, g, taker, maker, q)
    ensures forall i: nat :: i < |f.orders| ==>
                             Traded(g, i) == Traded(f, i) + (if i == maker || i == taker then q else 0)
  {
    var t := FillTrade(f, taker, maker, q);
    forall i: nat | i < |f.orders|
      ensures Traded(g, i) == Traded(f, i) + (if i == maker || i == taker then q else 0)
    {
      SumAppend(f.trades, t, UnitsOf(f.orders[i].side, i));
    }
  }

  lemma FillKeepsRows(f: Floor, g: Floor, markets: seq<Venue>, taker: Id, maker: Id, q: int)
    requires RowsOk(f, taker) && Meets(f, markets, taker, maker) && FillShape(f, g, taker, maker, q)
    requires 0 < q <= f.orders[maker].remaining
    ensures RowsOk(g, taker)
    ensures Traded(g, taker) == Traded(f, taker) + q
  {
    FillCountsUnits(f, g, markets, taker, maker, q);
    forall i: nat | i < |g.orders| && i != taker
      ensures RowOk(g.orders[i]) && TradedOk(g.orders[i], Traded(g, i))
    {
      assert RowOk(f.orders[i]) && TradedOk(f.orders[i], Traded(f, i));
      if i == maker {
        AfterFillOk(f.orders[i], q, Traded(f, i));
      }
    }
  }

  lemma FillKeepsTrades(f: Floor, g: Floor, markets: seq<Venue>, taker: Id, maker: Id, q: int)
    requires TradesOk(f, markets) && Meets(f, markets, taker, maker) && FillShape(f, g, taker, maker, q)
    requires 0 < q && 0 < f.orders[maker].price
    ensures TradesOk(g, markets)
  {
  }

  lemma FillKeepsBook(f: Floor, g: Floor, markets: seq<Venue>, taker: Id, maker: Id, q: int)
    requires Uncrossed(f.orders, markets, taker) && Linked(f, markets)
    requires Meets(f, markets, taker, maker) && FillShape(f, g, taker, maker, q) && 0 < q
    ensures Uncrossed(g.orders, markets, taker) && Linked(g, markets)
  {
  }

  /** A fill hands the buyer exactly the traded units, and takes them from the ask. */
  lemma FillMovesItems(f: Floor, g: Floor, markets: seq<Venue>, taker: Id, maker: Id, q: int)
    requires Meets(f, markets, taker, maker) && FillShape(f, g, taker, maker, q)
    ensures forall b :: Surplus(g, markets, b) == Surplus(f, markets, b)
              + (if f.orders[taker].side.Sell? && InBook(markets, f.orders[taker].market, b) then q else 0)
    ensures forall p :: Undelivered(g, p) == Undelivered(f, p)
    ensures forall p :: Unaccounted(g, p) == Unaccounted(f, p)
              - (if f.orders[taker].side.Sell? && p == f.orders[taker].owner then q else 0)
  {
    var t := FillTrade(f, taker, maker, q);
    var d := Delivery(t.buyer, t.market, q, 0, 0, TradeBuy);
    var after := AfterFill(f.orders[maker], q);
    forall b
      ensures Surplus(g, markets, b) == Surplus(f, markets, b)
              + (if f.orders[taker].side.Sell? && InBook(markets, f.orders[taker].market, b) then q else 0)
    {
      SumUpdate(f.orders, maker, after, AskUnits(markets, b));
      SumUpdate(f.orders, maker, after, OfferedUnits(markets, b));
      SumAppend(f.deliveries, d, DeliveryUnits(markets, b));
    }
    forall p
      ensures Undelivered(g, p) == Undelivered(f, p)
    {
      SumAppend(f.trades, t, UnitsBought(p));
      SumAppend(f.deliveries, d, UnitsDelivered(p));
    }
    forall p
      ensures Unaccounted(g, p) == Unaccounted(f, p)
                - (if f.orders[taker].side.Sell? && p == f.orders[taker].owner then q else 0)
    {
      SumUpdate(f.orders, maker, after, OfferedBy(p));
      SumUpdate(f.orders, maker, after, AskedBy(p));
      SumAppend(f.trades, t, UnitsSold(p));
      SumAppend(f.deliveries, d, UnitsReturned(p));
    }
  }
}
