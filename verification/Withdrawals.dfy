/**
 What leaves the book again: exactly which rows a cancellation and a retirement settle, who gets
 what back for each, and what the ledger and the deliveries say about it.
 */
module Withdrawals {
  import opened Sums
  import opened Domain
  import opened Matching
  import opened Settlement
  import opened MatchingLoops
  import opened Placement
  import opened Cancellation
  import opened Exchange
  import opened Invariants
  import opened StepsTrade

  /** An order that is out of the book for good. */
  function CanceledRow(o: Order): Order
  {
    o.(remaining := 0, reserved := 0, status := Canceled)
  }

  lemma RestingRow(f: Floor, markets: seq<Venue>, id: Id)
    requires Sound(f, markets, -1) && id < |f.orders| && Resting(f.orders[id])
    ensures f.orders[id].owner in f.accounts && 0 < f.orders[id].remaining
    ensures f.orders[id].side.Buy? ==> f.orders[id].reserved == f.orders[id].price * f.orders[id].remaining
                                       && 0 < f.orders[id].reserved
  {
    hide Sum; hide Total;
    var o := f.orders[id];
    assert RowOk(o);
    SmallerProduct(o.price, 1, o.remaining);
  }

  // ----- one order -----

  /** The ledger entry a withdrawn bid leaves. */
  function Refund(o: Order, id: Id, reason: LedgerReason): seq<Entry>
  {
    if o.side.Buy? then [Entry(o.owner, o.price * o.remaining, reason, Some(id))] else []
  }

  /** The delivery a withdrawn ask becomes. */
  function Return(o: Order, reason: DeliveryReason): seq<Delivery>
  {
    if o.side.Sell? then [Delivery(o.owner, o.market, o.remaining, 0, 0, reason)] else []
  }

  /** What one withdrawal writes: the row, the owner's money or items, and a trace of them. */
  ghost predicate Withdrawn(f: Floor, g: Floor, id: Id, refund: LedgerReason, back: DeliveryReason)
    requires id < |f.orders|
  {
    var o := f.orders[id];
    && g.orders == f.orders[id := CanceledRow(o)] && g.trades == f.trades
    && g.ledger == f.ledger + Refund(o, id, refund)
    && g.deliveries == f.deliveries + Return(o, back)
    && g.accounts.Keys == f.accounts.Keys
    && forall p :: p in f.accounts ==>
         g.accounts[p] == f.accounts[p] + (if o.side.Buy? && o.owner == p then o.price * o.remaining else 0)
  }

  lemma ReleaseWithdraws(f: Floor, id: Id, refund: LedgerReason, back: DeliveryReason)
    requires id < |f.orders| && f.orders[id].owner in f.accounts && 0 < f.orders[id].remaining
    requires var o := f.orders[id]; o.side.Buy? ==> o.reserved == o.price * o.remaining && 0 < o.reserved
    ensures var r := Release(f, id, refund, back);
            if r.Ok? then Withdrawn(f, r.value, id, refund, back)
            else f.orders[id].side.Buy? && f.accounts[f.orders[id].owner] + f.orders[id].reserved > INT64_MAX
  {
  }

  /**
   A cancellation is accepted for the owner of a resting order, or an administrator. It gives the
   bid's price for every unit left, or the ask's units left, back to the owner; takes the order
   out of the book; and writes nothing else.
   */
  lemma CancelWithdraws(t: Tables, id: Id, p: Player, administrator: bool, sha: string -> int)
    requires Good(t, sha)
    ensures match CancelOrder(t, id, p, administrator)
            case Ok(u) =>
              && id < |t.floor.orders| && Resting(t.floor.orders[id])
              && (administrator || t.floor.orders[id].owner == p)
              && u == t.(floor := u.floor) && Withdrawn(t.floor, u.floor, id, OrderCancelRefund, OrderCanceled)
            case Err(e) =>
              if id >= |t.floor.orders| then e == OrderMissing
              else if !administrator && t.floor.orders[id].owner != p then e == NotOwner
              else if !Resting(t.floor.orders[id]) then e == OrderNotOpen
              else
                var o := t.floor.orders[id];
                && e == BalanceOverflow && o.side.Buy? && o.owner in t.floor.accounts
                && t.floor.accounts[o.owner] + o.price * o.remaining > INT64_MAX
  {
    hide Good; hide Sum; hide Total; hide Release; hide SameHoldings; hide Released; hide Withdrawn; hide Sound;
    GoodIsSound(t, sha);
    if id < |t.floor.orders| && Resting(t.floor.orders[id]) {
      RestingRow(t.floor, t.markets, id);
      ReleaseWorks(t.floor, t.markets, id, OrderCancelRefund, OrderCanceled);
      ReleaseWithdraws(t.floor, id, OrderCancelRefund, OrderCanceled);
    }
  }

  // ----- all orders of a market -----

  predicate RestsIn(o: Order, m: Id)
  {
    Resting(o) && o.market == m
  }

  /** What a retirement pays a player for one order. */
  function PaidBack(p: Player, m: Id): Order -> int
  {
    (o: Order) => if RestsIn(o, m) && o.side.Buy? && o.owner == p then o.price * o.remaining else 0
  }

  /** The refunds for the bids of a market among the first `n` orders, in id order. */
  function Refunds(orders: seq<Order>, m: Id, n: nat): seq<Entry>
    requires n <= |orders|
  {
    if n == 0 then []
    else Refunds(orders, m, n - 1)
         + (if RestsIn(orders[n - 1], m) then Refund(orders[n - 1], n - 1, MarketCloseRefund) else [])
  }

  /** The deliveries for the asks of a market among the first `n` orders, in id order. */
  function Returns(orders: seq<Order>, m: Id, n: nat): seq<Delivery>
    requires n <= |orders|
  {
    if n == 0 then []
    else Returns(orders, m, n - 1) + (if RestsIn(orders[n - 1], m) then Return(orders[n - 1], MarketClosed) else [])
  }

  /** The first `n` orders settled, the others untouched. */
  ghost predicate Emptied(f: Floor, g: Floor, m: Id, n: nat)
    requires n <= |f.orders|
  {
    && |g.orders| == |f.orders| && g.trades == f.trades
    && (forall i: nat :: i < |f.orders| ==>
          g.orders[i] == if i < n && RestsIn(f.orders[i], m) then CanceledRow(f.orders[i]) else f.orders[i])
    && g.ledger == f.ledger + Refunds(f.orders, m, n)
    && g.deliveries == f.deliveries + Returns(f.orders, m, n)
    && g.accounts.Keys == f.accounts.Keys
    && forall p :: p in f.accounts ==> g.accounts[p] == f.accounts[p] + Sum(f.orders[..n], PaidBack(p, m))
  }

  /** Settling one order more is one release more. */
  lemma {:induction false} ReleaseAllAppend(f: Floor, ids: seq<Id>, id: Id)
    requires id < |f.orders| && forall k :: 0 <= k < |ids| ==> ids[k] < |f.orders|
    ensures var r := ReleaseAll(f, ids);
            && (r.Ok? ==> |r.value.orders| == |f.orders|)
            && ReleaseAll(f, ids + [id]) == (if r.Err? then r
                                             else Release(r.value, id, MarketCloseRefund, MarketClosed))
    decreases |ids|
  {
    hide Release;
    if ids == [] {
      assert ids + [id] == [id];
      var r := Release(f, id, MarketCloseRefund, MarketClosed);
      if r.Ok? { assert [id][1..] == []; }
    } else {
      assert (ids + [id])[1..] == ids[1..] + [id];
      var r := Release(f, ids[0], MarketCloseRefund, MarketClosed);
      if r.Ok? { ReleaseAllAppend(r.value, ids[1..], id); }
    }
  }

  lemma EmptiedNone(f: Floor, m: Id)
    ensures Emptied(f, f, m, 0)
  {
    assert f.orders[..0] == [];
  }

  lemma EmptiedOne(f: Floor, g: Floor, h: Floor, m: Id, n: nat)
    requires n < |f.orders| && Emptied(f, g, m, n)
    requires if RestsIn(f.orders[n], m) then n < |g.orders| && Withdrawn(g, h, n, MarketCloseRefund, MarketClosed)
             else h == g
    ensures Emptied(f, h, m, n + 1)
  {
    hide Sum;
    var o := f.orders[n];
    assert f.orders[..n + 1] == f.orders[..n] + [o];
    forall p
      ensures Sum(f.orders[..n + 1], PaidBack(p, m)) == Sum(f.orders[..n], PaidBack(p, m)) + PaidBack(p, m)(o)
    {
      SumAppend(f.orders[..n], o, PaidBack(p, m));
    }
  }

  /** Some owner's balance cannot hold what the first `n` orders pay back. */
  ghost predicate Overfull(f: Floor, m: Id, n: nat)
    requires n <= |f.orders|
  {
    exists p :: p in f.accounts && f.accounts[p] + Sum(f.orders[..n], PaidBack(p, m)) > INT64_MAX
  }

  lemma OverfullLater(f: Floor, markets: seq<Venue>, m: Id, n: nat)
    requires Sound(f, markets, -1) && n < |f.orders| && Overfull(f, m, n)
    ensures Overfull(f, m, n + 1)
  {
    hide Sum; hide Total;
    var o := f.orders[n];
    if Resting(o) { RestingRow(f, markets, n); }
    hide Sound;
    assert f.orders[..n + 1] == f.orders[..n] + [o];
    var p :| p in f.accounts && f.accounts[p] + Sum(f.orders[..n], PaidBack(p, m)) > INT64_MAX;
    SumAppend(f.orders[..n], o, PaidBack(p, m));
  }

  lemma OverfullNow(f: Floor, g: Floor, m: Id, n: nat)
    requires n < |f.orders| && Emptied(f, g, m, n) && RestsIn(f.orders[n], m) && f.orders[n].side.Buy?
    requires var o := f.orders[n];
             o.owner in f.accounts && g.accounts[o.owner] + o.price * o.remaining > INT64_MAX
    ensures Overfull(f, m, n + 1)
  {
    hide Sum;
    var o := f.orders[n];
    assert f.orders[..n + 1] == f.orders[..n] + [o];
    SumAppend(f.orders[..n], o, PaidBack(o.owner, m));
  }

  lemma {:induction false} ReleaseAllEmpties(f: Floor, markets: seq<Venue>, m: Id, n: nat)
    requires Sound(f, markets, -1) && n <= |f.orders|
    ensures match ReleaseAll(f, RestingOf(f.orders, m, n))
            case Err(_) => Overfull(f, m, n)
            case Ok(g) => Emptied(f, g, m, n)
  {
    hide Sum; hide Total; hide Sound; hide Release; hide ReleaseAll; hide Emptied; hide Withdrawn; hide Overfull;
    if n == 0 {
      EmptiedNone(f, m);
      ReleaseNone(f);
    } else {
      ReleaseAllEmpties(f, markets, m, n - 1);
      var ids := RestingOf(f.orders, m, n - 1);
      var r := ReleaseAll(f, ids);
      if RestsIn(f.orders[n - 1], m) {
        ReleaseAllAppend(f, ids, n - 1);
        RestingRow(f, markets, n - 1);
        if r.Ok? {
          EmptiedSoFar(f, r.value, m, n - 1);
          ReleaseWithdraws(r.value, n - 1, MarketCloseRefund, MarketClosed);
        }
      }
      var s := ReleaseAll(f, RestingOf(f.orders, m, n));
      if r.Err? {
        OverfullLater(f, markets, m, n - 1);
      } else if s.Err? {
        OverfullNow(f, r.value, m, n - 1);
      } else {
        EmptiedOne(f, r.value, s.value, m, n - 1);
      }
    }
  }

  lemma ReleaseNone(f: Floor)
    ensures ReleaseAll(f, []) == Ok(f)
  {
  }

  lemma EmptiedSoFar(f: Floor, g: Floor, m: Id, n: nat)
    requires n < |f.orders| && Emptied(f, g, m, n)
    ensures n < |g.orders| && g.orders[n] == f.orders[n] && g.accounts.Keys == f.accounts.Keys
  {
  }

  lemma PaidBackFits(f: Floor, g: Floor, markets: seq<Venue>, m: Id)
    requires Emptied(f, g, m, |f.orders|) && Sound(g, markets, -1)
    ensures !Overfull(f, m, |f.orders|)
  {
    hide Sum; hide Total;
  }

  /** A binding map without the bindings of one market. */
  ghost predicate UnboundFrom(before: map<string, Id>, after: map<string, Id>, m: Id)
  {
    forall k :: (k in after <==> k in before && before[k] != m) && (k in after ==> after[k] == before[k])
  }

  /**
   A retirement cancels every order that rests in the market, pays every bid's owner its price for
   each unit left and delivers every ask's units left to its owner; it touches no other order,
   and leaves a market that is neither active nor bound nor ever resumed. It is refused exactly
   when there is no such market or an owner's balance cannot hold what would be paid back.
   */
  lemma RetireWithdraws(t: Tables, m: Id, sha: string -> int)
    requires Good(t, sha)
    ensures match Retire(t, m)
            case Ok(u) =>
              && m < |t.markets|
              && u == t.(floor := u.floor, markets := u.markets, bindings := u.bindings)
              && Emptied(t.floor, u.floor, m, |t.floor.orders|)
              && (forall i: nat :: i < |u.floor.orders| ==> !RestsIn(u.floor.orders[i], m))
              && u.markets == t.markets[m := t.markets[m].(active := false, reopenable := false)]
              && UnboundFrom(t.bindings, u.bindings, m)
            case Err(e) => if m >= |t.markets| then e == MarketMissing
                           else e == BalanceOverflow && Overfull(t.floor, m, |t.floor.orders|)
    ensures Retire(t, m).Ok? ==> !Overfull(t.floor, m, |t.floor.orders|)
  {
    hide Good; hide Sum; hide Total; hide ReleaseAll; hide RestingOf; hide SameHoldings; hide Sound; hide ShelvesOk;
    hide BooksOk; hide OneLiveEach; hide Refunds; hide Returns;
    GoodIsSound(t, sha);
    if m < |t.markets| {
      GoodMarkets(t, sha);
      RetireEmptiesMarket(t.floor, t.markets, m);
      ReleaseAllEmpties(t.floor, t.markets, m, |t.floor.orders|);
      var r := ReleaseAll(t.floor, RestingOf(t.floor.orders, m, |t.floor.orders|));
      if r.Ok? { PaidBackFits(t.floor, r.value, t.markets, m); }
    }
  }

  // ----- pausing -----

  /** Closing pauses an active market and unbinds it, changes nothing of an inactive one, and settles no order. */
  lemma ClosePauses(t: Tables, m: Id, sha: string -> int)
    requires Good(t, sha)
    ensures match Close(t, m)
            case Err(e) => m >= |t.markets| && e == MarketMissing
            case Ok(u) =>
              && m < |t.markets| && u == t.(markets := u.markets, bindings := u.bindings)
              && UnboundFrom(t.bindings, u.bindings, m)
              && u.markets == (if t.markets[m].active
                               then t.markets[m := t.markets[m].(active := false, reopenable := true)] else t.markets)
  {
    hide Good; hide ShelvesOk; hide BooksOk; hide OneLiveEach;
    GoodMarkets(t, sha);
  }
}
