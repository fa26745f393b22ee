/** Taking orders out of the book: one at a time, or all that were placed through one market. */
module Cancellation {
  import opened Sums
  import opened Domain
  import opened Matching
  import opened Settlement
  import opened MatchingLoops
  import opened Placement

  lemma ReleasedRowOk(o: Order, traded: int)
    requires RowOk(o) && Resting(o) && TradedOk(o, traded) && 0 <= traded
    ensures var n := o.(remaining := 0, reserved := 0, status := Canceled); RowOk(n) && TradedOk(n, traded)
  {
  }

  lemma TradedIsNatural(f: Floor, markets: seq<Venue>, id: Id)
    requires TradesOk(f, markets) && id < |f.orders|
    ensures 0 <= Traded(f, id)
  {
    forall k | 0 <= k < |f.trades|
      ensures 0 <= UnitsOf(f.orders[id].side, id)(f.trades[k])
    {
      assert TradeOk(f.orders, markets, f.trades[k]);
    }
    SumNonNegative(f.trades, UnitsOf(f.orders[id].side, id));
  }

  /** The tables after a release: only its own row, and either its owner's balance or one delivery. */
  ghost predicate Released(f: Floor, g: Floor, id: Id, back: DeliveryReason)
    requires id < |f.orders|
  {
    var o := f.orders[id];
    && g.orders == f.orders[id := o.(remaining := 0, reserved := 0, status := Canceled)]
    && g.trades == f.trades
    && o.owner in f.accounts
    && if o.side.Buy? then
         && g.accounts == f.accounts[o.owner := f.accounts[o.owner] + o.reserved] && g.deliveries == f.deliveries
       else
         && g.accounts == f.accounts
         && g.deliveries == f.deliveries + [Delivery(o.owner, o.market, o.remaining, 0, 0, back)]
  }

  lemma ReleaseKeepsRows(f: Floor, g: Floor, markets: seq<Venue>, id: Id)
    requires Sound(f, markets, -1) && id < |f.orders| && Resting(f.orders[id]) && BankOk(g)
    requires g.orders == f.orders[id := f.orders[id].(remaining := 0, reserved := 0, status := Canceled)]
    requires g.trades == f.trades && g.accounts.Keys == f.accounts.Keys
    requires forall i :: 0 <= i < |g.deliveries| ==> g.deliveries[i].market < |markets| && 0 < g.deliveries[i].quantity
    ensures Sound(g, markets, -1)
  {
    hide Sum; hide Total;
    forall i: nat | i < |g.orders|
      ensures RowOk(g.orders[i]) && TradedOk(g.orders[i], Traded(g, i))
    {
      assert RowOk(f.orders[i]) && TradedOk(f.orders[i], Traded(f, i));
      if i == id {
        TradedIsNatural(f, markets, id);
        ReleasedRowOk(f.orders[i], Traded(f, i));
      }
    }
    forall k | 0 <= k < |g.trades|
      ensures TradeOk(g.orders, markets, g.trades[k])
    {
      assert TradeOk(f.orders, markets, f.trades[k]);
    }
    forall i, j | 0 <= i < |g.orders| && 0 <= j < |g.orders| && Opposed(g.orders[i], g.orders[j], markets)
      ensures g.orders[i].price < g.orders[j].price
    {
      assert i != id && j != id && Opposed(f.orders[i], f.orders[j], markets);
    }
  }

  /** Money and items come back to the owner and to nobody else. */
  lemma ReleaseKeepsHoldings(f: Floor, g: Floor, markets: seq<Venue>, id: Id, back: DeliveryReason)
    requires id < |f.orders| && Resting(f.orders[id]) && Released(f, g, id, back) && back != TradeBuy
    requires RowOk(f.orders[id])
    requires Total(g.accounts) == Total(f.accounts) + (if f.orders[id].side.Buy? then f.orders[id].reserved else 0)
    ensures SameHoldings(f, g, markets)
  {
    hide Sum; hide Total;
    var o, n := f.orders[id], g.orders[id];
    var d := Delivery(o.owner, o.market, o.remaining, 0, 0, back);
    SumUpdate(f.orders, id, n, OpenReserve());
    forall p
      ensures Position(g, p) == Position(f, p)
    {
      SumUpdate(f.orders, id, n, ReserveOf(p));
    }
    forall b
      ensures Surplus(g, markets, b) == Surplus(f, markets, b)
    {
      SumUpdate(f.orders, id, n, AskUnits(markets, b));
      SumUpdate(f.orders, id, n, OfferedUnits(markets, b));
      SumAppend(f.deliveries, d, DeliveryUnits(markets, b));
    }
    forall p
      ensures Undelivered(g, p) == Undelivered(f, p) && Unaccounted(g, p) == Unaccounted(f, p)
    {
      SumUpdate(f.orders, id, n, OfferedBy(p));
      SumUpdate(f.orders, id, n, AskedBy(p));
      SumAppend(f.deliveries, d, UnitsDelivered(p));
      SumAppend(f.deliveries, d, UnitsReturned(p));
    }
  }

  /** Releasing a resting order refunds its reserve or returns its items; only an overflow stops it. */
  lemma ReleaseWorks(f: Floor, markets: seq<Venue>, id: Id, refund: LedgerReason, back: DeliveryReason)
    requires Sound(f, markets, -1) && id < |f.orders| && Resting(f.orders[id]) && back != TradeBuy
    ensures match Release(f, id, refund, back)
            case Err(e) => e == BalanceOverflow && f.orders[id].side.Buy?
                           && f.accounts[f.orders[id].owner] + f.orders[id].reserved > INT64_MAX
            case Ok(g) => Released(f, g, id, back) && Sound(g, markets, -1) && SameHoldings(f, g, markets)
  {
    hide Sum; hide Total;
    var o := f.orders[id];
    assert RowOk(o) && BankOk(f) && o.owner in f.accounts;
    if o.side.Buy? {
      SmallerProduct(o.price, 0, o.remaining);
      CreditMoves(f, o.owner, o.reserved, refund, Some(id));
    }
    var r := Release(f, id, refund, back);
    if r.Ok? {
      hide Credit;
      assert BankOk(r.value);
      hide BankOk;
      ReleaseKeepsRows(f, r.value, markets, id);
      ReleaseKeepsHoldings(f, r.value, markets, id, back);
    }
  }

  lemma SameHoldingsTrans(f: Floor, g: Floor, h: Floor, markets: seq<Venue>)
    requires SameHoldings(f, g, markets) && SameHoldings(g, h, markets)
    ensures SameHoldings(f, h, markets)
  {
  }

  /** Exactly the listed rows are canceled, the others are as they were. */
  ghost predicate RowsReleased(f: Floor, g: Floor, ids: seq<Id>)
  {
    && |g.orders| == |f.orders| && g.trades == f.trades
    && forall i: nat :: i < |f.orders| ==>
         g.orders[i] == if i in ids then f.orders[i].(remaining := 0, reserved := 0, status := Canceled)
           else f.orders[i]
  }

  lemma NothingReleased(f: Floor, markets: seq<Venue>)
    ensures SameHoldings(f, f, markets) && RowsReleased(f, f, [])
  {
  }

  lemma RowsReleasedStep(f: Floor, g: Floor, h: Floor, ids: seq<Id>, back: DeliveryReason)
    requires ids != [] && ids[0] < |f.orders| && Released(f, g, ids[0], back) && RowsReleased(g, h, ids[1..])
    requires ids[0] !in ids[1..]
    ensures RowsReleased(f, h, ids)
  {
    assert forall i :: i in ids <==> i == ids[0] || i in ids[1..];
  }

  /** Retiring releases every listed order, keeps the invariants, and leaves all other rows alone. */
  lemma {:induction false} ReleaseAllWorks(f: Floor, markets: seq<Venue>, ids: seq<Id>)
    requires Sound(f, markets, -1)
    requires forall k :: 0 <= k < |ids| ==> ids[k] < |f.orders| && Resting(f.orders[ids[k]])
    requires forall j, k :: 0 <= j < k < |ids| ==> ids[j] < ids[k]
    ensures match ReleaseAll(f, ids)
            case Err(e) => e == BalanceOverflow
            case Ok(g) => Sound(g, markets, -1) && SameHoldings(f, g, markets) && RowsReleased(f, g, ids)
    decreases |ids|
  {
    hide Release; hide Sum; hide Total; hide Sound; hide SameHoldings; hide RowsReleased;
    if ids == [] {
      NothingReleased(f, markets);
    } else {
      ReleaseWorks(f, markets, ids[0], MarketCloseRefund, MarketClosed);
      var r := Release(f, ids[0], MarketCloseRefund, MarketClosed);
      var rest := ids[1..];
      assert ids[0] !in rest;
      if r.Ok? {
        var g := r.value;
        forall k | 0 <= k < |rest|
          ensures rest[k] < |g.orders| && Resting(g.orders[rest[k]])
        {
          assert rest[k] == ids[k + 1];
        }
        hide Released;
        ReleaseAllWorks(g, markets, rest);
        var s := ReleaseAll(g, rest);
        if s.Ok? {
          SameHoldingsTrans(f, g, s.value, markets);
          RowsReleasedStep(f, g, s.value, ids, MarketClosed);
        }
      }
    }
  }

  /** `retireMarket` empties its market out of the book and touches no order of another market. */
  lemma RetireEmptiesMarket(f: Floor, markets: seq<Venue>, market: Id)
    requires Sound(f, markets, -1)
    ensures match ReleaseAll(f, RestingOf(f.orders, market, |f.orders|))
            case Err(e) => e == BalanceOverflow
            case Ok(g) =>
              && Sound(g, markets, -1) && SameHoldings(f, g, markets) && |g.orders| == |f.orders|
                 && g.trades == f.trades
              && forall i: nat :: i < |f.orders| ==>
                   g.orders[i] == if Resting(f.orders[i]) && f.orders[i].market == market
                                  then f.orders[i].(remaining := 0, reserved := 0, status := Canceled)
                                  else f.orders[i]
  {
    hide Sound; hide SameHoldings; hide ReleaseAll; hide RestingOf;
    var ids := RestingOf(f.orders, market, |f.orders|);
    ReleaseAllWorks(f, markets, ids);
    assert forall i :: i in ids ==> exists k :: 0 <= k < |ids| && ids[k] == i;
  }
}
