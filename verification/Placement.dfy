/** Orders as whole transactions: selecting the opposite side, placing, cancelling and retiring. */
module Placement {
  import opened Sums
  import opened Domain
  import opened Matching
  import opened Settlement
  import opened MatchingLoops

  // ----- price-time selection -----

  /** Best price first, then the older order. */
  predicate Before(orders: seq<Order>, side: Side, i: Id, j: Id)
    requires i < |orders| && j < |orders|
  {
    var p, q := orders[i].price, orders[j].price;
    (if side.Sell? then p < q else p > q) || (p == q && i < j)
  }

  predicate Ordered(orders: seq<Order>, side: Side, ids: seq<Id>)
  {
    && (forall k :: 0 <= k < |ids| ==> ids[k] < |orders|)
    && (forall j, k :: 0 <= j < k < |ids| ==> Before(orders, side, ids[j], ids[k]))
  }

  lemma BeforeIsStrict(orders: seq<Order>, side: Side, i: Id, j: Id, k: Id)
    requires i < |orders| && j < |orders| && k < |orders|
    ensures !(Before(orders, side, i, j) && Before(orders, side, j, i)) && !Before(orders, side, i, i)
    ensures Before(orders, side, i, j) && Before(orders, side, j, k) ==> Before(orders, side, i, k)
  {
  }

  lemma InFirstOrRest(ids: seq<Id>)
    requires ids != []
    ensures forall x :: x in ids <==> x == ids[0] || x in ids[1..]
  {
    assert ids == [ids[0]] + ids[1..];
  }

  /** An ordered list, as its first element and the rest. */
  lemma OrderedRest(orders: seq<Order>, side: Side, ids: seq<Id>)
    requires Ordered(orders, side, ids) && ids != []
    ensures ids[0] < |orders| && Ordered(orders, side, ids[1..])
    ensures forall x :: x in ids[1..] ==> x < |orders| && Before(orders, side, ids[0], x)
  {
    hide Before;
    forall x | x in ids[1..]
      ensures x < |orders| && Before(orders, side, ids[0], x)
    {
      var k :| 0 <= k < |ids[1..]| && ids[1..][k] == x;
      assert ids[k + 1] == x;
    }
  }

  lemma OrderedFirst(orders: seq<Order>, side: Side, first: Id, rest: seq<Id>)
    requires Ordered(orders, side, rest) && first < |orders|
    requires forall x :: x in rest ==> x < |orders| && Before(orders, side, first, x)
    ensures Ordered(orders, side, [first] + rest)
  {
    hide Before;
    var ids := [first] + rest;
    assert forall k :: 0 < k < |ids| ==> ids[k] == rest[k - 1] && ids[k] in rest;
  }

  lemma OrderedInRange(orders: seq<Order>, side: Side, ids: seq<Id>)
    requires Ordered(orders, side, ids)
    ensures forall k :: 0 <= k < |ids| ==> ids[k] < |orders|
    ensures forall x :: x in ids ==> x < |orders|
  {
  }

  lemma {:induction false} EnqueueKeepsOrder(orders: seq<Order>, side: Side, ids: seq<Id>, id: Id)
    requires Ordered(orders, side, ids) && id < |orders|
    requires forall x :: x in ids ==> x < id
    ensures forall k :: 0 <= k < |ids| ==> ids[k] < |orders|
    ensures Ordered(orders, side, Enqueue(orders, side, ids, id))
  {
    hide Ordered;
    OrderedInRange(orders, side, ids);
    if ids == [] {
      NothingIsOrdered(orders, side);
      OrderedFirst(orders, side, id, []);
    } else {
      OrderedRest(orders, side, ids);
      InFirstOrRest(ids);
      if Better(side, orders[id].price, orders[ids[0]].price) {
        OrderedFirst(orders, side, id, ids);
      } else {
        assert ids[0] in ids;
        EnqueueKeepsOrder(orders, side, ids[1..], id);
        EnqueueMembers(orders, side, ids[1..], id);
        OrderedFirst(orders, side, ids[0], Enqueue(orders, side, ids[1..], id));
      }
    }
  }

  lemma NothingIsOrdered(orders: seq<Order>, side: Side)
    ensures Ordered(orders, side, [])
  {
  }

  /** The selection returns exactly the eligible orders, in price-time order. */
  lemma {:induction false} SelectIsPriceTime(orders: seq<Order>, markets: seq<Venue>, q: Query, n: nat)
    requires n <= |orders|
    ensures Ordered(orders, q.side, Select(orders, markets, q, n))
    ensures forall i: nat :: i in Select(orders, markets, q, n) <==> i < n && Eligible(orders[i], markets, q)
  {
    hide Ordered; hide Eligible; hide Enqueue;
    if n == 0 {
      NothingIsOrdered(orders, q.side);
    } else {
      SelectIsPriceTime(orders, markets, q, n - 1);
      var ids := Select(orders, markets, q, n - 1);
      if Eligible(orders[n - 1], markets, q) {
        EnqueueKeepsOrder(orders, q.side, ids, n - 1);
        EnqueueMembers(orders, q.side, ids, n - 1);
      }
    }
  }

  /** There is only one price-time ordering of a set of orders. */
  lemma {:induction false} PriceTimeIsUnique(orders: seq<Order>, side: Side, a: seq<Id>, b: seq<Id>)
    requires Ordered(orders, side, a) && Ordered(orders, side, b)
    requires forall x :: x in a <==> x in b
    ensures a == b
    decreases |a|
  {
    hide Ordered; hide Before;
    assert |b| > 0 ==> b[0] in b && b[0] in a;
    if a != [] {
      assert a[0] in a && a[0] in b && b != [];
      assert b[0] in b && b[0] in a;
      OrderedRest(orders, side, a);
      OrderedRest(orders, side, b);
      InFirstOrRest(a);
      InFirstOrRest(b);
      BeforeIsStrict(orders, side, a[0], b[0], b[0]);
      assert a[0] == b[0];
      forall x
        ensures x in a[1..] <==> x in b[1..]
      {
        BeforeIsStrict(orders, side, a[0], a[0], a[0]);
      }
      PriceTimeIsUnique(orders, side, a[1..], b[1..]);
      assert a == [a[0]] + a[1..] && b == [b[0]] + b[1..];
    }
  }

  /** The orders an incoming order selects are orders it may trade with, each once. */
  lemma CandidatesAreMakers(g: Floor, markets: seq<Venue>, req: Request, taker: Id)
    requires TakerRow(g, req, taker) && |g.orders| == taker + 1
    requires Linked(g, markets) && req.market < |markets|
    ensures Makers(g, markets, taker, Candidates(g.orders, markets, MakerQuery(req, markets[req.market].book)))
  {
    var q := MakerQuery(req, markets[req.market].book);
    var ids := Candidates(g.orders, markets, q);
    SelectIsPriceTime(g.orders, markets, q, |g.orders|);
    forall k | 0 <= k < |ids|
      ensures Meets(g, markets, taker, ids[k])
    {
      assert Eligible(g.orders[ids[k]], markets, q);
    }
    forall j, k | 0 <= j < k < |ids|
      ensures ids[j] != ids[k]
    {
      assert Before(g.orders, q.side, ids[j], ids[k]);
    }
  }

  // ----- opening -----

  predicate ValidOrder(req: Request)
  {
    && 0 < req.quantity <= INT32_MAX
    && (req.kind.Limit? ==> 0 < req.price && req.price * req.quantity <= INT64_MAX)
  }

  /** The same books, seen by money, positions and items: what opening an order may not change. */
  ghost predicate SameHoldings(f: Floor, g: Floor, markets: seq<Venue>)
  {
    && g.accounts.Keys == f.accounts.Keys
    && Money(g) == Money(f)
    && (forall p :: Position(g, p) == Position(f, p))
    && (forall b :: Surplus(g, markets, b) == Surplus(f, markets, b))
    && (forall p :: Undelivered(g, p) == Undelivered(f, p))
    && (forall p :: Unaccounted(g, p) == Unaccounted(f, p))
  }

  lemma FreshOrderHasNoTrades(f: Floor, markets: seq<Venue>, side: Side)
    requires TradesOk(f, markets)
    ensures Sum(f.trades, UnitsOf(side, |f.orders|)) == 0
    ensures Sum(f.trades, ValueOf(side, |f.orders|)) == 0
  {
    forall k | 0 <= k < |f.trades|
      ensures UnitsOf(side, |f.orders|)(f.trades[k]) == 0 && ValueOf(side, |f.orders|)(f.trades[k]) == 0
    {
      assert TradeOk(f.orders, markets, f.trades[k]);
    }
    SumZero(f.trades, UnitsOf(side, |f.orders|));
    SumZero(f.trades, ValueOf(side, |f.orders|));
  }

  /** Inserting a row leaves every settled row settled and every trade explained. */
  lemma InsertKeepsSound(f: Floor, g: Floor, markets: seq<Venue>, o: Order)
    requires Sound(f, markets, -1) && BankOk(g) && o.owner in f.accounts && o.market < |markets|
    requires g == f.(accounts := g.accounts, ledger := g.ledger, orders := f.orders + [o])
    requires g.accounts.Keys == f.accounts.Keys
    ensures Sound(g, markets, |f.orders|)
  {
    hide Total; hide Sum;
    forall i: nat | i < |g.orders| && i != |f.orders|
      ensures RowOk(g.orders[i]) && TradedOk(g.orders[i], Traded(g, i))
    {
      assert RowOk(f.orders[i]) && TradedOk(f.orders[i], Traded(f, i));
    }
    forall k | 0 <= k < |g.trades|
      ensures TradeOk(g.orders, markets, g.trades[k])
    {
      assert TradeOk(f.orders, markets, f.trades[k]);
    }
    hide RowOk; hide TradeOk; hide BankOk;
  }

  /** A new buy row moves `reserved` cents from the balance into the row. */
  lemma OpenBuyMoves(f: Floor, g: Floor, markets: seq<Venue>, req: Request, reserved: int)
    requires req.side.Buy? && 0 <= reserved && req.player in f.accounts
    requires g == f.(accounts := g.accounts, ledger := g.ledger, orders := f.orders + [NewOrder(req, reserved)])
    requires g.accounts == f.accounts[req.player := f.accounts[req.player] - reserved]
    requires Total(g.accounts) == Total(f.accounts) - reserved
    ensures SameHoldings(f, g, markets)
  {
    hide Total; hide Sum;
    var o := NewOrder(req, reserved);
    SumAppend(f.orders, o, OpenReserve());
    forall p
      ensures Position(g, p) == Position(f, p)
    {
      SumAppend(f.orders, o, ReserveOf(p));
    }
    forall p
      ensures Unaccounted(g, p) == Unaccounted(f, p)
    {
      SumAppend(f.orders, o, OfferedBy(p));
      SumAppend(f.orders, o, AskedBy(p));
    }
    forall b
      ensures Surplus(g, markets, b) == Surplus(f, markets, b)
    {
      SumAppend(f.orders, o, AskUnits(markets, b));
      SumAppend(f.orders, o, OfferedUnits(markets, b));
    }
  }

  /** Opening a buy: it fails only without an account or without the money for its limit. */
  lemma OpenBuyPays(f: Floor, req: Request)
    requires BankOk(f) && ValidOrder(req) && req.side.Buy?
    ensures match OpenBuy(f, req)
            case Err(e) => if req.player in f.accounts then
                             e == InsufficientBalance && f.accounts[req.player] < Prepaid(req) * req.quantity
                           else e == AccountMissing
            case Ok(g) =>
              && req.player in f.accounts && BankOk(g)
              && g == f.(accounts := g.accounts, ledger := g.ledger,
                         orders := f.orders + [NewOrder(req, Prepaid(req) * req.quantity)])
              && Total(g.accounts) == Total(f.accounts) - Prepaid(req) * req.quantity
              && g.accounts == f.accounts[req.player := f.accounts[req.player] - Prepaid(req) * req.quantity]
  {
    hide Total; hide Sum;
    if req.player in f.accounts {
      var reserved := Prepaid(req) * req.quantity;
      if req.kind.Limit? {
        SmallerProduct(req.price, 0, req.quantity);
        assert BuyReserve(f, req) == if f.accounts[req.player] < reserved then Err(InsufficientBalance)
               else Ok(reserved);
      } else {
        assert reserved == 0 && BuyReserve(f, req) == Ok(reserved);
      }
      hide BuyReserve;
      var inserted := f.(orders := f.orders + [NewOrder(req, reserved)]);
      assert BankOk(inserted);
      DebitMoves(inserted, req.player, reserved, BuyOrderReserve, Some(|f.orders|));
    }
  }

  /** Opening a buy is a sound start for its matching loop. */
  lemma OpenBuyReady(f: Floor, g: Floor, markets: seq<Venue>, req: Request)
    requires Sound(f, markets, -1) && ValidOrder(req) && req.side.Buy? && req.market < |markets|
    requires OpenBuy(f, req) == Ok(g)
    ensures req.player in f.accounts && g.trades == f.trades
    ensures g.orders == f.orders + [NewOrder(req, Prepaid(req) * req.quantity)]
    ensures Sound(g, markets, |f.orders|) && TakerRow(g, req, |f.orders|) && SameHoldings(f, g, markets)
    ensures g.accounts[req.player] == f.accounts[req.player] - Prepaid(req) * req.quantity
  {
    hide Total; hide Sum; hide OpenBuy; hide Sound; hide SameHoldings; hide BankOk;
    SoundHasBank(f, markets, -1);
    OpenBuyPays(f, req);
    var reserved := Prepaid(req) * req.quantity;
    assert 0 <= reserved by { if req.kind.Limit? { SmallerProduct(req.price, 0, req.quantity); } }
    InsertKeepsSound(f, g, markets, NewOrder(req, reserved));
    OpenBuyMoves(f, g, markets, req, reserved);
  }

  // ----- closing -----

  /** Nothing of the opposite side that the order `taker` could still trade with is left. */
  ghost predicate Clear(h: Floor, markets: seq<Venue>, req: Request, taker: Id)
  {
    forall i: nat :: i < |h.orders| && i != taker && Resting(h.orders[i]) && h.orders[i].side != req.side
                     && h.orders[i].owner != req.player && SameBook(markets, h.orders[i].market, req.market)
                     ==> !WithinLimit(h.orders[i].side, h.orders[i].price, Some(req.price))
  }

  lemma ExhaustedIsClear(g: Floor, h: Floor, markets: seq<Venue>, req: Request, taker: Id)
    requires TakerRow(g, req, taker) && |g.orders| == |h.orders| && req.market < |markets| && req.kind.Limit?
    requires forall i :: 0 <= i < |g.orders| ==> Weaker(g.orders[i], h.orders[i])
    requires Exhausted(h, Candidates(g.orders, markets, MakerQuery(req, markets[req.market].book)))
    ensures Clear(h, markets, req, taker)
  {
    var q := MakerQuery(req, markets[req.market].book);
    SelectIsPriceTime(g.orders, markets, q, |g.orders|);
    forall i: nat | i < |h.orders| && i != taker && Resting(h.orders[i]) && h.orders[i].side != req.side
                    && h.orders[i].owner != req.player && SameBook(markets, h.orders[i].market, req.market)
      ensures !WithinLimit(h.orders[i].side, h.orders[i].price, Some(req.price))
    {
      assert Weaker(g.orders[i], h.orders[i]);
      if WithinLimit(h.orders[i].side, h.orders[i].price, Some(req.price)) {
        assert Eligible(g.orders[i], markets, q);
      }
    }
  }

  /** The incoming order's row right before its final UPDATE. */
  predicate UnclosedRow(h: Floor, req: Request, taker: Id, c: Cursor)
  {
    && TakerRow(h, req, taker) && ValidOrder(req)
    && h.orders[taker] == NewOrder(req, Prepaid(req) * req.quantity)
    && 0 <= c.remaining && 0 <= c.filled && c.remaining + c.filled == req.quantity && Traded(h, taker) == c.filled
  }

  lemma ClosedRowOk(h: Floor, req: Request, taker: Id, c: Cursor)
    requires UnclosedRow(h, req, taker, c)
    ensures var o := CloseTaker(h, req, taker, c, Prepaid(req) * c.remaining).orders[taker];
            RowOk(o) && TradedOk(o, c.filled)
  {
  }

  lemma CloseKeepsSound(h: Floor, markets: seq<Venue>, req: Request, taker: Id, c: Cursor)
    requires Sound(h, markets, taker) && UnclosedRow(h, req, taker, c)
    requires req.kind.Limit? && c.remaining > 0 ==> Clear(h, markets, req, taker)
    ensures Sound(CloseTaker(h, req, taker, c, Prepaid(req) * c.remaining), markets, -1)
  {
    hide Sum; hide Total;
    var g := CloseTaker(h, req, taker, c, Prepaid(req) * c.remaining);
    ClosedRowOk(h, req, taker, c);
    assert BankOk(g);
    forall i: nat | i < |g.orders|
      ensures RowOk(g.orders[i]) && TradedOk(g.orders[i], Traded(g, i))
    {
      if i != taker { assert RowOk(h.orders[i]) && TradedOk(h.orders[i], Traded(h, i)); }
    }
    forall k | 0 <= k < |g.trades|
      ensures TradeOk(g.orders, markets, g.trades[k])
    {
      assert TradeOk(h.orders, markets, h.trades[k]);
    }
    CloseKeepsUncrossed(h, markets, req, taker, c);
    hide BankOk; hide Uncrossed; hide TradeOk; hide RowOk; hide TradedOk;
  }

  /** The newly resting order does not cross what is left on the other side. */
  lemma CloseKeepsUncrossed(h: Floor, markets: seq<Venue>, req: Request, taker: Id, c: Cursor)
    requires Uncrossed(h.orders, markets, taker) && UnclosedRow(h, req, taker, c)
    requires req.kind.Limit? && c.remaining > 0 ==> Clear(h, markets, req, taker)
    ensures Uncrossed(CloseTaker(h, req, taker, c, Prepaid(req) * c.remaining).orders, markets, -1)
  {
    hide Sum;
    var g := CloseTaker(h, req, taker, c, Prepaid(req) * c.remaining);
    forall i, j | 0 <= i < |g.orders| && 0 <= j < |g.orders| && Opposed(g.orders[i], g.orders[j], markets)
      ensures g.orders[i].price < g.orders[j].price
    {
      if i != taker && j != taker { assert Opposed(h.orders[i], h.orders[j], markets); }
    }
  }

  /** The final UPDATE frees what was reserved for the filled units, and what is no longer offered. */
  lemma CloseMoves(h: Floor, markets: seq<Venue>, req: Request, taker: Id, c: Cursor)
    requires UnclosedRow(h, req, taker, c)
    ensures var g := CloseTaker(h, req, taker, c, Prepaid(req) * c.remaining);
            && Money(g) == Money(h) - Prepaid(req) * c.filled
            && (forall p :: Position(g, p) == Position(h, p) - (if p == req.player then Prepaid(req) * c.filled else 0))
            && (forall b :: Surplus(g, markets, b) == Surplus(h, markets, b)
                  - (if req.side.Sell? && InBook(markets, req.market, b)
                     then req.quantity - (if req.kind.Limit? then c.remaining else 0) else 0))
            && (forall p :: Undelivered(g, p) == Undelivered(h, p))
            && (forall p :: Unaccounted(g, p) == Unaccounted(h, p)
                  + (if req.side.Sell? && p == req.player
                     then req.quantity - (if req.kind.Limit? then c.remaining else 0) else 0))
  {
    hide Sum; hide Total;
    var g := CloseTaker(h, req, taker, c, Prepaid(req) * c.remaining);
    var o, n := h.orders[taker], g.orders[taker];
    assert Prepaid(req) * req.quantity == Prepaid(req) * c.filled + Prepaid(req) * c.remaining;
    assert OpenReserve()(o) == Prepaid(req) * req.quantity;
    assert OpenReserve()(n) == Prepaid(req) * c.remaining;
    SumUpdate(h.orders, taker, n, OpenReserve());
    forall p
      ensures Position(g, p) == Position(h, p) - (if p == req.player then Prepaid(req) * c.filled else 0)
    {
      SumUpdate(h.orders, taker, n, ReserveOf(p));
    }
    forall p
      ensures Unaccounted(g, p) == Unaccounted(h, p)
                + (if req.side.Sell? && p == req.player
                   then req.quantity - (if req.kind.Limit? then c.remaining else 0) else 0)
    {
      SumUpdate(h.orders, taker, n, OfferedBy(p));
      SumUpdate(h.orders, taker, n, AskedBy(p));
    }
    forall b
      ensures Surplus(g, markets, b) == Surplus(h, markets, b)
                - (if req.side.Sell? && InBook(markets, req.market, b)
                   then req.quantity - (if req.kind.Limit? then c.remaining else 0) else 0)
    {
      SumUpdate(h.orders, taker, n, AskUnits(markets, b));
      SumUpdate(h.orders, taker, n, OfferedUnits(markets, b));
    }
  }

  // ----- whole orders -----

  /** The report and the tables of a committed order. */
  ghost predicate Executed(f: Floor, g: Floor, markets: seq<Venue>, req: Request, x: Execution)
  {
    && Sound(g, markets, -1) && SameHoldings(f, g, markets)
    && x.order == |f.orders| && |g.orders| == |f.orders| + 1 && x.requested == req.quantity
    && req.player in f.accounts && x.balance == g.accounts[req.player]
    && g.orders[x.order]
       == NewOrder(req, Prepaid(req) * x.open).(remaining := x.open, status := g.orders[x.order].status)
    && x.filled == Traded(g, x.order) && x.gross == Sum(g.trades, ValueOf(req.side, x.order))
    && x.open == (if req.kind.Limit? then req.quantity - x.filled else 0)
    && x.gross <= INT64_MAX
    && x.balance == f.accounts[req.player] + (if req.side.Sell? then x.gross else -x.gross - Prepaid(req) * x.open)
    && (forall i :: 0 <= i < |f.orders| ==> Weaker(f.orders[i], g.orders[i]))
  }

  lemma BuyGrossFits(req: Request, c: Cursor, before: int, after: int, gross: int)
    requires req.side.Buy? && ValidOrder(req) && 0 <= c.remaining && 0 <= c.filled
             && c.remaining + c.filled == req.quantity
    requires 0 <= after && before <= INT64_MAX
    requires after == before - Prepaid(req) * req.quantity + Prepaid(req) * c.filled - gross
    ensures gross <= INT64_MAX
    ensures after == before - gross - Prepaid(req) * c.remaining
  {
    assert Prepaid(req) * req.quantity == Prepaid(req) * c.filled + Prepaid(req) * c.remaining;
    if req.kind.Limit? { SmallerProduct(req.price, 0, c.remaining); }
  }

  lemma SoundIsPriced(f: Floor, markets: seq<Venue>)
    requires Sound(f, markets, -1)
    ensures PricedRows(f)
  {
    forall i | 0 <= i < |f.orders| && Resting(f.orders[i])
      ensures f.orders[i].price > 0
    {
      assert RowOk(f.orders[i]);
    }
  }

  /** The start of a loop, from a freshly opened order. */
  lemma OpenedRuns(f: Floor, g: Floor, markets: seq<Venue>, req: Request, taker: Id)
    requires Sound(g, markets, taker) && TakerRow(g, req, taker) && |g.orders| == taker + 1 && 0 < req.quantity
    requires req.market < |markets| && g.trades == f.trades && Sound(f, markets, -1) && taker == |f.orders|
    ensures var ids := Candidates(g.orders, markets, MakerQuery(req, markets[req.market].book));
            Running(g, markets, req, taker, ids, Cursor(req.quantity, 0, 0)) && ValidMakers(g, ids)
    ensures Traded(g, taker) == 0 && Sum(g.trades, ValueOf(req.side, taker)) == 0
  {
    var ids := Candidates(g.orders, markets, MakerQuery(req, markets[req.market].book));
    CandidatesAreMakers(g, markets, req, taker);
    FreshOrderHasNoTrades(f, markets, req.side);
    hide Sum; hide Total; hide Candidates; hide Makers; hide Sound;
    MakersAreValid(g, markets, req, taker, ids, Cursor(req.quantity, 0, 0));
  }

  /** A matched loop leaves a row that can be closed, next to a book that it does not cross. */
  lemma MatchedCanClose(g: Floor, h: Floor, d: Cursor, markets: seq<Venue>, req: Request, taker: Id)
    requires TakerRow(g, req, taker) && ValidOrder(req) && |g.orders| == taker + 1 && req.market < |markets|
    requires g.orders[taker] == NewOrder(req, Prepaid(req) * req.quantity) && Traded(g, taker) == 0
    requires var ids := Candidates(g.orders, markets, MakerQuery(req, markets[req.market].book));
             Matched(g, Cursor(req.quantity, 0, 0), Ok((h, d)), markets, req, taker, ids)
    ensures UnclosedRow(h, req, taker, d)
    ensures req.kind.Limit? && d.remaining > 0 ==> Clear(h, markets, req, taker)
  {
    hide Sum; hide Total; hide Sound; hide Candidates;
    if req.kind.Limit? && d.remaining > 0 {
      ExhaustedIsClear(g, h, markets, req, taker);
    }
  }

  /** Which errors may end a buy, and under which conditions. */
  predicate BuyRefused(f: Floor, markets: seq<Venue>, req: Request, e: Error)
  {
    if req.market >= |markets| then e == MarketMissing
    else if !markets[req.market].active then e == MarketInactive
    else if req.player !in f.accounts then e == AccountMissing
    else if f.accounts[req.player] < Prepaid(req) * req.quantity then e == InsufficientBalance
    else e == BalanceOverflow
  }

  lemma BuyCommits(f: Floor, g: Floor, h: Floor, markets: seq<Venue>, req: Request, d: Cursor)
    requires BankOk(f) && req.player in f.accounts && req.side.Buy? && SameHoldings(f, g, markets)
    requires |g.orders| == |f.orders| + 1 && g.orders[..|f.orders|] == f.orders
    requires Traded(g, |f.orders|) == 0 && Sum(g.trades, ValueOf(req.side, |f.orders|)) == 0
    requires g.accounts[req.player] == f.accounts[req.player] - Prepaid(req) * req.quantity
    requires Progress(g, Cursor(req.quantity, 0, 0), h, d, markets, req, |f.orders|)
    requires UnclosedRow(h, req, |f.orders|, d) && 0 <= h.accounts[req.player]
    requires var k := CloseTaker(h, req, |f.orders|, d, Prepaid(req) * d.remaining);
             && Sound(k, markets, -1) && Money(k) == Money(h) - Prepaid(req) * d.filled
             && (forall p ::
                   Position(k, p) == Position(h, p) - (if p == req.player then Prepaid(req) * d.filled else 0))
             && (forall b :: Surplus(k, markets, b) == Surplus(h, markets, b))
             && (forall p :: Undelivered(k, p) == Undelivered(h, p) && Unaccounted(k, p) == Unaccounted(h, p))
    ensures var k := CloseTaker(h, req, |f.orders|, d, Prepaid(req) * d.remaining);
            Executed(f, k, markets, req, Report(k, req, |f.orders|, d))
  {
    hide Sum; hide Total; hide Sound; hide Money; hide Position; hide Surplus; hide Undelivered; hide Unaccounted;
    var k := CloseTaker(h, req, |f.orders|, d, Prepaid(req) * d.remaining);
    BuyGrossFits(req, d, f.accounts[req.player], k.accounts[req.player], d.gross);
  }

  /** From an opened buy to its committed report. */
  lemma BuyFinishes(f: Floor, g: Floor, h: Floor, d: Cursor, markets: seq<Venue>, req: Request)
    requires Sound(f, markets, -1) && ValidOrder(req) && req.side.Buy? && req.market < |markets|
    requires OpenBuy(f, req) == Ok(g)
    requires Matched(g, Cursor(req.quantity, 0, 0), Ok((h, d)), markets, req, |f.orders|,
                     Candidates(g.orders, markets, MakerQuery(req, markets[req.market].book)))
    requires Traded(g, |f.orders|) == 0 && Sum(g.trades, ValueOf(req.side, |f.orders|)) == 0
    ensures |f.orders| < |h.orders| && req.player in h.accounts && 0 <= d.remaining <= req.quantity
    ensures var k := CloseTaker(h, req, |f.orders|, d, Prepaid(req) * d.remaining);
            Executed(f, k, markets, req, Report(k, req, |f.orders|, d))
  {
    var taker := |f.orders|;
    assert BankOk(f) && BankOk(h);
    assert 0 <= h.accounts[req.player];
    OpenBuyReady(f, g, markets, req);
    hide OpenBuy; hide Sum; hide Total; hide Candidates; hide Sound;
    MatchedCanClose(g, h, d, markets, req, taker);
    hide Exhausted; hide Clear;
    CloseKeepsSound(h, markets, req, taker, d);
    CloseMoves(h, markets, req, taker, d);
    hide Position; hide Surplus; hide Undelivered; hide Unaccounted; hide Money;
    BuyCommits(f, g, h, markets, req, d);
    hide Executed; hide Progress; hide BankOk;
  }

  lemma CloseBuyFits(h: Floor, req: Request, taker: Id, d: Cursor)
    requires taker < |h.orders| && req.player in h.accounts && 0 <= d.remaining <= req.quantity
    requires ValidOrder(req) && req.side.Buy?
    ensures var k := CloseTaker(h, req, taker, d, Prepaid(req) * d.remaining);
            CloseBuy(h, req, taker, d) == Ok((k, Report(k, req, taker, d)))
  {
    if req.kind.Limit? { SmallerProduct(req.price, d.remaining, req.quantity); }
  }

  /**
   A buy either aborts for a reason listed above or commits: sound tables, nothing created or
   lost, and a report that agrees with the tables.
   */
  lemma PlaceBuyExecutes(f: Floor, markets: seq<Venue>, req: Request)
    requires Sound(f, markets, -1) && ValidOrder(req) && req.side.Buy? && PricedRows(f)
    ensures match PlaceBuy(f, markets, req)
            case Err(e) => BuyRefused(f, markets, req, e)
            case Ok((g, x)) => Executed(f, g, markets, req, x)
  {
    if req.market < |markets| && markets[req.market].active {
      OpenBuyPays(f, req);
      hide OpenBuy; hide Sum; hide Total; hide Executed; hide Candidates; hide Sound; hide BankOk; hide PricedRows;
      hide SameHoldings; hide Makers; hide Running; hide Progress; hide Exhausted; hide ValidMakers;
      hide TakerRow; hide NewOrder; hide CloseBuy; hide CloseTaker; hide Traded;
      var start := OpenBuy(f, req);
      if start.Ok? {
        var g, c := start.value, Cursor(req.quantity, 0, 0);
        var asks := Candidates(g.orders, markets, MakerQuery(req, markets[req.market].book));
        OpenBuyReady(f, g, markets, req);
        OpenedRuns(f, g, markets, req, |f.orders|);
        BuyLoopMatches(g, markets, req, |f.orders|, asks, c);
        hide BuyLoop;
        var matched := BuyLoop(g, req, |f.orders|, asks, c);
        if matched.Ok? {
          BuyFinishes(f, g, matched.value.0, matched.value.1, markets, req);
          CloseBuyFits(matched.value.0, req, |f.orders|, matched.value.1);
        }
      }
    }
  }

  // ----- sells -----

  lemma OpenSellReady(f: Floor, g: Floor, markets: seq<Venue>, req: Request)
    requires Sound(f, markets, -1) && ValidOrder(req) && req.side.Sell? && req.market < |markets|
    requires OpenSell(f, req) == Ok(g)
    ensures req.player in f.accounts && g == f.(orders := f.orders + [NewOrder(req, 0)])
    ensures Sound(g, markets, |f.orders|) && TakerRow(g, req, |f.orders|)
    ensures SameHoldings(f, g, markets)
  {
    hide Sum; hide Total;
    var o := NewOrder(req, 0);
    assert BankOk(g);
    InsertKeepsSound(f, g, markets, o);
    SumAppend(f.orders, o, OpenReserve());
    forall p
      ensures Position(g, p) == Position(f, p)
    {
      SumAppend(f.orders, o, ReserveOf(p));
    }
    forall p
      ensures Unaccounted(g, p) == Unaccounted(f, p)
    {
      SumAppend(f.orders, o, OfferedBy(p));
      SumAppend(f.orders, o, AskedBy(p));
    }
    forall b
      ensures Surplus(g, markets, b) == Surplus(f, markets, b)
    {
      SumAppend(f.orders, o, AskUnits(markets, b));
      SumAppend(f.orders, o, OfferedUnits(markets, b));
    }
    hide Sound; hide BankOk;
  }

  /** Giving items back is a delivery of exactly those items. */
  lemma ReturnItems(h: Floor, markets: seq<Venue>, p: Player, market: Id, quantity: int, reason: DeliveryReason, x: int)
    requires Sound(h, markets, x) && market < |markets| && 0 <= quantity && reason != TradeBuy
    ensures var r := AddDelivery(h, p, market, quantity, reason);
            && Sound(r, markets, x) && Money(r) == Money(h)
            && (forall q :: Position(r, q) == Position(h, q) && Undelivered(r, q) == Undelivered(h, q))
            && (forall q :: Unaccounted(r, q) == Unaccounted(h, q) - (if q == p then quantity else 0))
            && (forall b :: Surplus(r, markets, b) == Surplus(h, markets, b)
                              + (if InBook(markets, market, b) then quantity else 0))
  {
    hide Sum; hide Total;
    var r := AddDelivery(h, p, market, quantity, reason);
    if 0 < quantity {
      var d := Delivery(p, market, quantity, 0, 0, reason);
      forall b
        ensures Surplus(r, markets, b) == Surplus(h, markets, b) + (if InBook(markets, market, b) then quantity else 0)
      {
        SumAppend(h.deliveries, d, DeliveryUnits(markets, b));
      }
      forall q
        ensures Undelivered(r, q) == Undelivered(h, q)
      {
        SumAppend(h.deliveries, d, UnitsDelivered(q));
      }
      forall q
        ensures Unaccounted(r, q) == Unaccounted(h, q) - (if q == p then quantity else 0)
      {
        SumAppend(h.deliveries, d, UnitsReturned(q));
      }
      assert BankOk(r);
      forall i: nat | i < |r.orders| && i != x
        ensures RowOk(r.orders[i]) && TradedOk(r.orders[i], Traded(r, i))
      {
        assert RowOk(h.orders[i]) && TradedOk(h.orders[i], Traded(h, i));
      }
      hide BankOk; hide RowOk;
    }
  }

  /** What a sell gives back of an incoming market order that found too few bids. */
  function ReturnRemainder(h: Floor, req: Request, c: Cursor): (r: Floor)
    ensures r == h.(deliveries := r.deliveries)
  {
    if req.kind.Market? then AddDelivery(h, req.player, req.market, c.remaining, MarketRemainder) else h
  }

  lemma SellCommits(f: Floor, g: Floor, h: Floor, r: Floor, markets: seq<Venue>, req: Request, d: Cursor)
    requires BankOk(f) && BankOk(h) && req.player in f.accounts && req.side.Sell? && SameHoldings(f, g, markets)
    requires g == f.(orders := f.orders + [NewOrder(req, 0)])
    requires Traded(g, |f.orders|) == 0 && Sum(g.trades, ValueOf(req.side, |f.orders|)) == 0
    requires Progress(g, Cursor(req.quantity, 0, 0), h, d, markets, req, |f.orders|)
    requires UnclosedRow(h, req, |f.orders|, d) && r == ReturnRemainder(h, req, d)
    requires forall b :: Surplus(r, markets, b) == Surplus(h, markets, b)
               + (if InBook(markets, req.market, b) && req.kind.Market? then d.remaining else 0)
    requires Money(r) == Money(h)
             && (forall p :: Position(r, p) == Position(h, p) && Undelivered(r, p) == Undelivered(h, p))
             && forall p :: Unaccounted(r, p) == Unaccounted(h, p)
                  - (if p == req.player && req.kind.Market? then d.remaining else 0)
    requires var k := CloseTaker(r, req, |f.orders|, d, 0);
             && Sound(k, markets, -1) && Money(k) == Money(r)
             && (forall p :: Position(k, p) == Position(r, p))
             && (forall b :: Surplus(k, markets, b) == Surplus(r, markets, b)
                   - (if InBook(markets, req.market, b)
                      then req.quantity - (if req.kind.Limit? then d.remaining else 0) else 0))
             && (forall p :: Undelivered(k, p) == Undelivered(r, p))
             && (forall p :: Unaccounted(k, p) == Unaccounted(r, p)
                   + (if p == req.player
                      then req.quantity - (if req.kind.Limit? then d.remaining else 0) else 0))
    ensures var k := CloseTaker(r, req, |f.orders|, d, 0);
            Executed(f, k, markets, req, Report(k, req, |f.orders|, d))
  {
    hide Sum; hide Total; hide Sound; hide Money; hide Position; hide Surplus; hide Undelivered; hide Unaccounted;
  }

  /** Handing the remainder back keeps the order closable. */
  lemma SellReturns(h: Floor, d: Cursor, markets: seq<Venue>, req: Request, taker: Id)
    requires Sound(h, markets, taker) && UnclosedRow(h, req, taker, d) && req.market < |markets|
    requires req.kind.Limit? && d.remaining > 0 ==> Clear(h, markets, req, taker)
    ensures var r := ReturnRemainder(h, req, d);
            && Sound(r, markets, taker) && UnclosedRow(r, req, taker, d)
            && (req.kind.Limit? && d.remaining > 0 ==> Clear(r, markets, req, taker))
            && Money(r) == Money(h)
            && (forall p :: Position(r, p) == Position(h, p) && Undelivered(r, p) == Undelivered(h, p))
            && (forall p :: Unaccounted(r, p) == Unaccounted(h, p)
                  - (if p == req.player && req.kind.Market? then d.remaining else 0))
            && (forall b :: Surplus(r, markets, b) == Surplus(h, markets, b)
                  + (if InBook(markets, req.market, b) && req.kind.Market? then d.remaining else 0))
  {
    hide Sum; hide Total;
    var r := ReturnRemainder(h, req, d);
    if req.kind.Market? { ReturnItems(h, markets, req.player, req.market, d.remaining, MarketRemainder, taker); }
    hide Sound; hide AddDelivery; hide Clear;
  }

  lemma SoundHasBank(f: Floor, markets: seq<Venue>, x: int)
    requires Sound(f, markets, x)
    ensures BankOk(f)
  {
  }

  lemma SellFinishes(f: Floor, g: Floor, h: Floor, d: Cursor, markets: seq<Venue>, req: Request)
    requires Sound(f, markets, -1) && ValidOrder(req) && req.side.Sell? && req.market < |markets|
    requires OpenSell(f, req) == Ok(g)
    requires Matched(g, Cursor(req.quantity, 0, 0), Ok((h, d)), markets, req, |f.orders|,
                     Candidates(g.orders, markets, MakerQuery(req, markets[req.market].book)))
    requires Traded(g, |f.orders|) == 0 && Sum(g.trades, ValueOf(req.side, |f.orders|)) == 0
    ensures |f.orders| < |h.orders| && req.player in h.accounts && h.orders[|f.orders|].reserved == 0
    ensures var k := CloseTaker(ReturnRemainder(h, req, d), req, |f.orders|, d, 0);
            Executed(f, k, markets, req, Report(k, req, |f.orders|, d))
  {
    hide OpenSell; hide Sum; hide Total; hide Candidates; hide Sound; hide BankOk; hide SameHoldings; hide Clear;
    hide Exhausted; hide Meets;
    var taker := |f.orders|;
    var r := ReturnRemainder(h, req, d);
    SoundHasBank(f, markets, -1);
    SoundHasBank(h, markets, taker);
    OpenSellReady(f, g, markets, req);
    MatchedCanClose(g, h, d, markets, req, taker);
    SellReturns(h, d, markets, req, taker);
    hide ReturnRemainder;
    CloseKeepsSound(r, markets, req, taker, d);
    CloseMoves(r, markets, req, taker, d);
    hide Position; hide Surplus; hide Undelivered; hide Unaccounted; hide Money; hide CloseTaker;
    SellCommits(f, g, h, r, markets, req, d);
    hide Executed; hide Progress;
  }

  predicate SellRefused(f: Floor, markets: seq<Venue>, req: Request, e: Error)
  {
    if req.market >= |markets| then e == MarketMissing
    else if !markets[req.market].active then e == MarketInactive
    else if req.player !in f.accounts then e == AccountMissing
    else e == BalanceOverflow
  }

  /** A sell commits, unless its market or account is missing or a balance would overflow. */
  lemma PlaceSellExecutes(f: Floor, markets: seq<Venue>, req: Request)
    requires Sound(f, markets, -1) && ValidOrder(req) && req.side.Sell? && PricedRows(f)
    ensures match PlaceSell(f, markets, req)
            case Err(e) => SellRefused(f, markets, req, e)
            case Ok((g, x)) => Executed(f, g, markets, req, x)
  {
    if req.market < |markets| && markets[req.market].active && req.player in f.accounts {
      var g, c := OpenSell(f, req).value, Cursor(req.quantity, 0, 0);
      var bids := Candidates(g.orders, markets, MakerQuery(req, markets[req.market].book));
      hide Sum; hide Total; hide Executed; hide Candidates;
      OpenSellReady(f, g, markets, req);
      OpenedRuns(f, g, markets, req, |f.orders|);
      SellLoopMatches(g, markets, req, |f.orders|, bids, c);
      var matched := SellLoop(g, req, |f.orders|, bids, c);
      hide SellLoop; hide Sound; hide Progress; hide Makers; hide Running; hide BankOk;
      if matched.Ok? {
        SellFinishes(f, g, matched.value.0, matched.value.1, markets, req);
      }
    }
  }
}
