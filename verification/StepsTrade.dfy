/** Orders, markets, delivery claims and sell escrows keep the database good. */
module StepsTrade {
  import opened Sums
  import opened Domain
  import opened Matching
  import opened Settlement
  import opened MatchingLoops
  import opened Placement
  import opened Cancellation
  import opened Growth
  import opened Exchange
  import opened Invariants
  import opened StepsMoney

  // ----- orders -----

  lemma ExecutedKeepsOrders(f: Floor, g: Floor, markets: seq<Venue>, req: Request, x: Execution)
    requires Executed(f, g, markets, req, x)
    ensures OrdersKept(f.orders, g.orders) && Sound(g, markets, -1) && SameHoldings(f, g, markets)
  {
  }

  lemma GoodIsSound(t: Tables, sha: string -> int)
    requires Good(t, sha)
    ensures Sound(t.floor, t.markets, -1) && PricedRows(t.floor)
  {
    hide Sum; hide Total; hide Sound; hide MarketsOk; hide ClaimsOk; hide EscrowsOk; hide ItemsOk; hide CashOk;
    hide TransfersOk; hide SalesOk; hide ListingsOk;
    SoundIsPriced(t.floor, t.markets);
  }

  lemma PlaceKeepsGood(t: Tables, req: Request, sha: string -> int)
    requires Good(t, sha) && ValidOrder(req) && PricedRows(t.floor)
    ensures Good(AfterPair(t, Place(t, req)), sha)
  {
    hide Good; hide PlaceBuy; hide PlaceSell; hide Executed; hide Sound; hide SameHoldings; hide Grown; hide OrdersKept;
    hide PricedRows;
    var f := t.floor;
    GoodIsSound(t, sha);
    if req.side.Buy? {
      PlaceBuyExecutes(f, t.markets, req);
      PlaceBuyGrows(f, t.markets, req);
    } else {
      PlaceSellExecutes(f, t.markets, req);
      PlaceSellGrows(f, t.markets, req);
    }
    var r := Place(t, req);
    if r.Ok? {
      var g := r.value.0.floor;
      ExecutedKeepsOrders(f, g, t.markets, req, r.value.1);
      TradingKeepsGood(t, g, sha);
    }
  }

  lemma ReleasedKeepsOrders(f: Floor, g: Floor, id: Id, back: DeliveryReason)
    requires id < |f.orders| && Released(f, g, id, back) && 0 <= f.orders[id].remaining
    ensures OrdersKept(f.orders, g.orders)
  {
  }

  lemma RowNatural(f: Floor, markets: seq<Venue>, id: Id)
    requires Sound(f, markets, -1) && id < |f.orders|
    ensures RowOk(f.orders[id])
  {
  }

  lemma CancelOrderKeepsGood(t: Tables, id: Id, p: Player, administrator: bool, sha: string -> int)
    requires Good(t, sha)
    ensures Good(After(t, CancelOrder(t, id, p, administrator)), sha)
  {
    hide Good; hide Release; hide Sound; hide SameHoldings; hide Grown; hide OrdersKept; hide Released;
    var r := CancelOrder(t, id, p, administrator);
    if r.Ok? {
      var f := t.floor;
      GoodIsSound(t, sha);
      ReleaseWorks(f, t.markets, id, OrderCancelRefund, OrderCanceled);
      ReleaseGrows(f, id, OrderCancelRefund, OrderCanceled);
      RowNatural(f, t.markets, id);
      ReleasedKeepsOrders(f, r.value.floor, id, OrderCanceled);
      TradingKeepsGood(t, r.value.floor, sha);
    }
  }

  // ----- markets -----

  /** Markets keep their books; new markets may be added. */
  predicate BooksKept(markets: seq<Venue>, now: seq<Venue>)
  {
    |markets| <= |now| && forall m :: 0 <= m < |markets| ==> now[m].book == markets[m].book
  }

  lemma SoundUnderMarkets(f: Floor, markets: seq<Venue>, now: seq<Venue>)
    requires Sound(f, markets, -1) && BooksKept(markets, now)
    ensures Sound(f, now, -1)
  {
    hide Sum; hide Total; hide BankOk; hide RowOk; hide TradedOk;
    forall k | 0 <= k < |f.trades|
      ensures TradeOk(f.orders, now, f.trades[k])
    {
      assert TradeOk(f.orders, markets, f.trades[k]);
    }
    forall i, j | 0 <= i < |f.orders| && 0 <= j < |f.orders| && Opposed(f.orders[i], f.orders[j], now)
      ensures f.orders[i].price < f.orders[j].price
    {
      assert Opposed(f.orders[i], f.orders[j], markets);
    }
  }

  lemma LinkedRows(f: Floor, markets: seq<Venue>)
    requires Sound(f, markets, -1)
    ensures Linked(f, markets)
  {
  }

  lemma SurplusUnderMarkets(f: Floor, markets: seq<Venue>, now: seq<Venue>, b: Id)
    requires Linked(f, markets) && BooksKept(markets, now)
    ensures Surplus(f, now, b) == Surplus(f, markets, b)
  {
    hide Sum;
    SumSame(f.orders, AskUnits(markets, b), AskUnits(now, b));
    SumSame(f.orders, OfferedUnits(markets, b), OfferedUnits(now, b));
    SumSame(f.deliveries, DeliveryUnits(markets, b), DeliveryUnits(now, b));
  }

  lemma ExcessUnderMarkets(escrows: seq<Escrow>, orders: seq<Order>, keys: set<Player>, markets: seq<Venue>,
                           now: seq<Venue>, b: Id)
    requires EscrowsOk(escrows, orders, keys, |markets|) && BooksKept(markets, now)
    ensures Sum(escrows, ExcessIn(now, b)) == Sum(escrows, ExcessIn(markets, b))
  {
    hide Sum;
    forall e | 0 <= e < |escrows|
      ensures ExcessIn(now, b)(escrows[e]) == ExcessIn(markets, b)(escrows[e])
    {
      assert EscrowOk(escrows[e], orders, keys, |markets|);
    }
    SumSame(escrows, ExcessIn(now, b), ExcessIn(markets, b));
  }

  lemma ItemsUnderMarkets(f: Floor, markets: seq<Venue>, now: seq<Venue>, escrows: seq<Escrow>)
    requires ItemsOk(f, markets, escrows) && Sound(f, markets, -1) && BooksKept(markets, now)
    requires EscrowsOk(escrows, f.orders, f.accounts.Keys, |markets|)
    ensures ItemsOk(f, now, escrows)
  {
    hide Sum; hide Sound; hide EscrowsOk; hide Surplus; hide Undelivered; hide Unaccounted; hide BooksKept;
    LinkedRows(f, markets);
    forall b
      ensures Surplus(f, now, b) == Sum(escrows, ExcessIn(now, b))
    {
      SurplusUnderMarkets(f, markets, now, b);
      ExcessUnderMarkets(escrows, f.orders, f.accounts.Keys, markets, now, b);
    }
  }

  /** Markets may be added, paused and resumed under everything that was traded through them. */
  lemma MarketsChangeKeepsGood(t: Tables, books: seq<Book>, now: seq<Venue>, bindings: map<string, Id>,
                               sha: string -> int)
    requires Good(t, sha) && BooksKept(t.markets, now) && MarketsOk(books, now, bindings, sha)
    ensures Good(t.(books := books, markets := now, bindings := bindings), sha)
  {
    hide Sum; hide Total; hide Sound; hide MarketsOk; hide ClaimsOk; hide EscrowsOk; hide ItemsOk; hide CashOk;
    hide TransfersOk; hide SalesOk; hide ListingsOk;
    SoundUnderMarkets(t.floor, t.markets, now);
    ItemsUnderMarkets(t.floor, t.markets, now, t.escrows);
    OrdersKeptRefl(t.floor.orders);
    EscrowsSurvive(t.escrows, t.floor.orders, t.floor.orders, t.floor.accounts.Keys, t.floor.accounts.Keys,
                   |t.markets|, |now|);
  }

  lemma GoodMarkets(t: Tables, sha: string -> int)
    requires Good(t, sha)
    ensures MarketsOk(t.books, t.markets, t.bindings, sha)
  {
  }

  /** The book table after `activateMarket` looked the item up. */
  function BooksFor(books: seq<Book>, sha: string -> int, item: Item): seq<Book>
  {
    if FindBook(books, sha(Fingerprint(item)), |books|).Some? then books
    else books + [Book(item, sha(Fingerprint(item)))]
  }

  lemma BookFoundOrAdded(books: seq<Book>, markets: seq<Venue>, sha: string -> int, item: Item)
    requires BooksOk(books, sha) && ShelvesOk(books, markets)
    ensures BooksOk(BooksFor(books, sha, item), sha) && ShelvesOk(BooksFor(books, sha, item), markets)
  {
    hide Fingerprint; hide FindBook;
  }

  lemma ResumedMarketOk(books: seq<Book>, markets: seq<Venue>, bindings: map<string, Id>, m: Id)
    requires BindingsOk(markets, bindings) && ShelvesOk(books, markets) && m < |markets| && !Retired(markets[m])
    requires markets[m].target !in bindings
    ensures var now := markets[m := markets[m].(active := true, reopenable := false)];
            BindingsOk(now, bindings[markets[m].target := m]) && ShelvesOk(books, now)
  {
  }

  lemma NewMarketOk(books: seq<Book>, markets: seq<Venue>, bindings: map<string, Id>, v: Venue)
    requires BindingsOk(markets, bindings) && ShelvesOk(books, markets) && v.target !in bindings
    requires v.active && !v.reopenable && v.book < |books| && books[v.book].item == v.item
    requires v.target != "" && v.item.kind != ""
    requires forall i :: 0 <= i < |markets| ==> !Resumable(markets[i], v.target, v.kind, v.book)
    ensures BindingsOk(markets + [v], bindings[v.target := |markets|]) && ShelvesOk(books, markets + [v])
  {
  }

  lemma ActivateKeepsGood(t: Tables, sha: string -> int, target: string, kind: TargetKind, item: Item)
    requires Good(t, sha)
    ensures Good(AfterPair(t, Activate(t, sha, target, kind, item)), sha)
  {
    hide Good; hide Fingerprint; hide FindBook; hide FindResumable; hide BindingsOk; hide ShelvesOk; hide BooksOk;
    var r := Activate(t, sha, target, kind, item);
    if r.Ok? {
      var u := r.value.0;
      GoodMarkets(t, sha);
      BookFoundOrAdded(t.books, t.markets, sha, item);
      var found := FindBook(t.books, sha(Fingerprint(item)), |t.books|);
      var book := if found.Some? then found.value else |t.books|;
      var resumed := FindResumable(t.markets, target, kind, book, |t.markets|);
      if resumed.Some? {
        ResumedMarketOk(u.books, t.markets, t.bindings, resumed.value);
      } else {
        NewMarketOk(u.books, t.markets, t.bindings, Venue(book, target, kind, item, true, false));
      }
      MarketsChangeKeepsGood(t, u.books, u.markets, u.bindings, sha);
    }
  }

  /** Taking an active market out of service, with its binding. */
  lemma PausedShelvesOk(books: seq<Book>, markets: seq<Venue>, m: Id, reopenable: bool)
    requires ShelvesOk(books, markets) && m < |markets|
    ensures ShelvesOk(books, markets[m := markets[m].(active := false, reopenable := reopenable)])
  {
  }

  lemma PausedMarketsOk(books: seq<Book>, markets: seq<Venue>, bindings: map<string, Id>, sha: string -> int, m: Id,
                        reopenable: bool)
    requires MarketsOk(books, markets, bindings, sha) && m < |markets| && (reopenable ==> markets[m].active)
    ensures MarketsOk(books, markets[m := markets[m].(active := false, reopenable := reopenable)],
                      Unbind(bindings, markets[m].target, m), sha)
  {
    hide BooksOk;
    var now := markets[m := markets[m].(active := false, reopenable := reopenable)];
    PausedShelvesOk(books, markets, m, reopenable);
    hide ShelvesOk;
    assert BindingsOk(now, Unbind(bindings, markets[m].target, m));
  }

  lemma CloseKeepsGood(t: Tables, m: Id, sha: string -> int)
    requires Good(t, sha)
    ensures Good(After(t, Close(t, m)), sha)
  {
    hide Good;
    var r := Close(t, m);
    if r.Ok? {
      GoodMarkets(t, sha);
      if t.markets[m].active {
        PausedMarketsOk(t.books, t.markets, t.bindings, sha, m, true);
      } else {
        assert UnbindAll(t.bindings, m) == t.bindings;
      }
      MarketsChangeKeepsGood(t, t.books, r.value.markets, r.value.bindings, sha);
    }
  }

  lemma RetiredKeepsOrders(orders: seq<Order>, now: seq<Order>, m: Id)
    requires |now| == |orders|
    requires forall i: nat :: i < |orders| ==>
               now[i] == if Resting(orders[i]) && orders[i].market == m
                         then orders[i].(remaining := 0, reserved := 0, status := Canceled) else orders[i]
    requires forall i: nat :: i < |orders| ==> RowOk(orders[i])
    ensures OrdersKept(orders, now)
  {
  }

  lemma AllRowsOk(f: Floor, markets: seq<Venue>)
    requires Sound(f, markets, -1)
    ensures forall i: nat :: i < |f.orders| ==> RowOk(f.orders[i])
  {
  }

  lemma RetireKeepsGood(t: Tables, m: Id, sha: string -> int)
    requires Good(t, sha)
    ensures Good(After(t, Retire(t, m)), sha)
  {
    hide Good; hide ReleaseAll; hide RestingOf; hide Sound; hide SameHoldings; hide Grown; hide OrdersKept; hide RowOk;
    var r := Retire(t, m);
    if r.Ok? {
      var f, g := t.floor, r.value.floor;
      GoodIsSound(t, sha);
      GoodMarkets(t, sha);
      RetireEmptiesMarket(f, t.markets, m);
      ReleaseAllGrows(f, RestingOf(f.orders, m, |f.orders|));
      AllRowsOk(f, t.markets);
      RetiredKeepsOrders(f.orders, g.orders, m);
      TradingKeepsGood(t, g, sha);
      var u := t.(floor := g);
      PausedMarketsOk(t.books, t.markets, t.bindings, sha, m, false);
      hide MarketsOk;
      MarketsChangeKeepsGood(u, t.books, r.value.markets, r.value.bindings, sha);
    }
  }

  // ----- delivery claims -----

  predicate SameGoods(d: Delivery, e: Delivery)
  {
    e == d.(claimed := e.claimed, reserved := e.reserved)
  }

  lemma DeliverySums(deliveries: seq<Delivery>, d: Id, row: Delivery, w: Delivery -> int)
    requires d < |deliveries| && w(row) == w(deliveries[d])
    ensures Sum(deliveries[d := row], w) == Sum(deliveries, w)
  {
    SumUpdate(deliveries, d, row, w);
  }

  /** Claiming changes two columns of one delivery, which no total of goods or money looks at. */
  lemma ClaimingKeepsHoldings(f: Floor, markets: seq<Venue>, d: Id, row: Delivery)
    requires Sound(f, markets, -1) && d < |f.deliveries| && SameGoods(f.deliveries[d], row)
    ensures var g := f.(deliveries := f.deliveries[d := row]);
            Sound(g, markets, -1) && SameHoldings(f, g, markets)
  {
    hide Sum; hide Total; hide RowOk; hide TradedOk; hide TradeOk;
    var g := f.(deliveries := f.deliveries[d := row]);
    assert BankOk(g);
    hide BankOk;
    forall i: nat | i < |g.orders|
      ensures RowOk(g.orders[i]) && TradedOk(g.orders[i], Traded(g, i))
    {
      assert RowOk(f.orders[i]) && TradedOk(f.orders[i], Traded(f, i));
    }
    forall b
      ensures Surplus(g, markets, b) == Surplus(f, markets, b)
    {
      DeliverySums(f.deliveries, d, row, DeliveryUnits(markets, b));
    }
    forall p
      ensures Undelivered(g, p) == Undelivered(f, p) && Unaccounted(g, p) == Unaccounted(f, p)
    {
      DeliverySums(f.deliveries, d, row, UnitsDelivered(p));
      DeliverySums(f.deliveries, d, row, UnitsReturned(p));
    }
  }

  lemma ClaimChangeKeepsGood(t: Tables, claims: seq<Claim>, d: Id, row: Delivery, sha: string -> int)
    requires Good(t, sha) && d < |t.floor.deliveries| && SameGoods(t.floor.deliveries[d], row)
    requires ClaimsOk(claims, t.floor.deliveries[d := row])
    ensures Good(t.(claims := claims, floor := t.floor.(deliveries := t.floor.deliveries[d := row])), sha)
  {
    hide Sum; hide Total; hide Sound; hide MarketsOk; hide ClaimsOk; hide EscrowsOk; hide TransfersOk; hide SalesOk;
    hide ListingsOk; hide Surplus; hide Undelivered; hide Unaccounted; hide Position; hide Money;
    ClaimingKeepsHoldings(t.floor, t.markets, d, row);
  }

  /** How the two sums over claims follow one new or changed claim. */
  lemma ClaimSumsAppend(claims: seq<Claim>, c: Claim, d: Id)
    ensures Sum(claims + [c], PreparedOf(d)) == Sum(claims, PreparedOf(d)) + PreparedOf(d)(c)
    ensures Sum(claims + [c], AppliedOf(d)) == Sum(claims, AppliedOf(d)) + AppliedOf(d)(c)
  {
    SumAppend(claims, c, PreparedOf(d));
    SumAppend(claims, c, AppliedOf(d));
  }

  lemma ClaimSumsUpdate(claims: seq<Claim>, i: Id, c: Claim, d: Id)
    requires i < |claims|
    ensures Sum(claims[i := c], PreparedOf(d))
            == Sum(claims, PreparedOf(d)) - PreparedOf(d)(claims[i]) + PreparedOf(d)(c)
    ensures Sum(claims[i := c], AppliedOf(d)) == Sum(claims, AppliedOf(d)) - AppliedOf(d)(claims[i]) + AppliedOf(d)(c)
  {
    SumUpdate(claims, i, c, PreparedOf(d));
    SumUpdate(claims, i, c, AppliedOf(d));
  }

  lemma PreparedClaimsOk(claims: seq<Claim>, deliveries: seq<Delivery>, d: Id, quantity: int)
    requires ClaimsOk(claims, deliveries) && d < |deliveries|
    requires 0 < quantity <= deliveries[d].quantity - deliveries[d].claimed - deliveries[d].reserved
    ensures var row := deliveries[d];
            ClaimsOk(claims + [Claim(d, row.owner, quantity, 0, ClaimPrepared, false)],
                     deliveries[d := row.(reserved := row.reserved + quantity)])
  {
    hide Sum;
    var row := deliveries[d];
    var c := Claim(d, row.owner, quantity, 0, ClaimPrepared, false);
    var now := deliveries[d := row.(reserved := row.reserved + quantity)];
    forall e: nat | e < |now|
      ensures DeliveryOk(claims + [c], now[e], e)
    {
      assert DeliveryOk(claims, deliveries[e], e);
      ClaimSumsAppend(claims, c, e);
    }
    forall i | 0 <= i < |claims + [c]|
      ensures ClaimOk((claims + [c])[i], now)
    {
      if i < |claims| { assert ClaimOk(claims[i], deliveries); }
    }
  }

  lemma GoodClaims(t: Tables, sha: string -> int)
    requires Good(t, sha)
    ensures ClaimsOk(t.claims, t.floor.deliveries)
  {
    hide Sum; hide Total;
  }

  lemma PrepareClaimKeepsGood(t: Tables, d: Id, p: Player, quantity: int, sha: string -> int)
    requires Good(t, sha)
    ensures Good(AfterPair(t, PrepareClaim(t, d, p, quantity)), sha)
  {
    hide Good; hide ClaimsOk;
    var r := PrepareClaim(t, d, p, quantity);
    if r.Ok? {
      GoodClaims(t, sha);
      var row := t.floor.deliveries[d];
      var prepared := Min(quantity, row.quantity - row.claimed - row.reserved);
      PreparedClaimsOk(t.claims, t.floor.deliveries, d, prepared);
      ClaimChangeKeepsGood(t, r.value.0.claims, d, row.(reserved := row.reserved + prepared), sha);
    }
  }

  /** A prepared claim is covered by its delivery's reservation, so completing it never hits the guard. */
  lemma PreparedClaimIsCovered(claims: seq<Claim>, deliveries: seq<Delivery>, c: Id)
    requires ClaimsOk(claims, deliveries) && c < |claims| && claims[c].status.ClaimPrepared?
    ensures claims[c].delivery < |deliveries|
    ensures var row := deliveries[claims[c].delivery];
            claims[c].quantity <= row.reserved && row.claimed + claims[c].quantity <= row.quantity
  {
    var d := claims[c].delivery;
    assert ClaimOk(claims[c], deliveries) && DeliveryOk(claims, deliveries[d], d);
    forall i | 0 <= i < |claims|
      ensures 0 <= PreparedOf(d)(claims[i])
    {
      assert ClaimOk(claims[i], deliveries);
    }
    SumNonNegative(claims, PreparedOf(d));
    assert PreparedOf(d)(claims[c]) == claims[c].quantity;
  }

  /** The claim's row after its completion. */
  function CompletedClaim(c: Claim, delivered: int): Claim
  {
    if delivered == 0 then c.(applied := 0, status := ClaimCanceled, cleaned := true)
    else c.(applied := delivered, status := ClaimApplied)
  }

  lemma CompletedClaimsOk(claims: seq<Claim>, deliveries: seq<Delivery>, c: Id, delivered: int)
    requires ClaimsOk(claims, deliveries) && c < |claims| && claims[c].status.ClaimPrepared?
    requires 0 <= delivered <= claims[c].quantity && claims[c].delivery < |deliveries|
    ensures var d := claims[c].delivery;
            ClaimsOk(claims[c := CompletedClaim(claims[c], delivered)],
                     deliveries[d := deliveries[d].(claimed := deliveries[d].claimed + delivered,
                                                    reserved := deliveries[d].reserved - claims[c].quantity)])
  {
    hide Sum;
    PreparedClaimIsCovered(claims, deliveries, c);
    var d, done := claims[c].delivery, CompletedClaim(claims[c], delivered);
    var row := deliveries[d];
    var now := deliveries[d := row.(claimed := row.claimed + delivered, reserved := row.reserved - claims[c].quantity)];
    assert ClaimOk(claims[c], deliveries);
    forall e: nat | e < |now|
      ensures DeliveryOk(claims[c := done], now[e], e)
    {
      assert DeliveryOk(claims, deliveries[e], e);
      ClaimSumsUpdate(claims, c, done, e);
    }
    var after := claims[c := done];
    forall i | 0 <= i < |after|
      ensures ClaimOk(after[i], now)
    {
      assert ClaimOk(claims[i], deliveries);
    }
  }

  lemma CompleteClaimKeepsGood(t: Tables, c: Id, delivered: int, sha: string -> int)
    requires Good(t, sha)
    ensures var r := CompleteClaim(t, c, delivered);
            Good(After(t, r), sha) && (r.Err? ==> r.error != ReservationInvariant && r.error != DeliveryMissing)
  {
    hide Good; hide ClaimsOk;
    GoodClaims(t, sha);
    if c < |t.claims| && t.claims[c].status.ClaimPrepared? && 0 <= delivered <= t.claims[c].quantity {
      var claim := t.claims[c];
      PreparedClaimIsCovered(t.claims, t.floor.deliveries, c);
      CompletedClaimsOk(t.claims, t.floor.deliveries, c, delivered);
      var row := t.floor.deliveries[claim.delivery];
      ClaimChangeKeepsGood(t, t.claims[c := CompletedClaim(claim, delivered)], claim.delivery,
                           row.(claimed := row.claimed + delivered, reserved := row.reserved - claim.quantity), sha);
    }
  }

  lemma CleanClaimKeepsGood(t: Tables, c: Id, sha: string -> int)
    requires Good(t, sha)
    ensures Good(After(t, CleanClaim(t, c)), sha)
  {
    hide Sum; hide Total; hide Sound; hide MarketsOk; hide EscrowsOk; hide ItemsOk; hide CashOk;
    hide TransfersOk; hide SalesOk; hide ListingsOk;
    if c < |t.claims| && t.claims[c].status.ClaimApplied? {
      var done := t.claims[c].(cleaned := true);
      var now := t.claims[c := done];
      forall d: nat | d < |t.floor.deliveries|
        ensures DeliveryOk(now, t.floor.deliveries[d], d)
      {
        assert DeliveryOk(t.claims, t.floor.deliveries[d], d);
        ClaimSumsUpdate(t.claims, c, done, d);
      }
      forall i | 0 <= i < |now|
        ensures ClaimOk(now[i], t.floor.deliveries)
      {
        assert ClaimOk(t.claims[i], t.floor.deliveries);
      }
    }
  }

  // ----- sell escrows -----

  /** An escrow row that is new or was changed without becoming an order moves no items. */
  lemma EscrowChangeKeepsGood(t: Tables, escrows: seq<Escrow>, sha: string -> int)
    requires Good(t, sha) && EscrowsOk(escrows, t.floor.orders, t.floor.accounts.Keys, |t.markets|)
    requires forall b :: Sum(escrows, ExcessIn(t.markets, b)) == Sum(t.escrows, ExcessIn(t.markets, b))
    requires forall p :: Sum(escrows, ExcessOf(p)) == Sum(t.escrows, ExcessOf(p))
    ensures Good(t.(escrows := escrows), sha)
  {
    hide Sum; hide Total; hide Sound; hide MarketsOk; hide ClaimsOk; hide EscrowsOk; hide CashOk;
    hide TransfersOk; hide SalesOk; hide ListingsOk; hide Surplus; hide Undelivered; hide Unaccounted;
  }

  lemma GoodEscrows(t: Tables, sha: string -> int)
    requires Good(t, sha)
    ensures EscrowsOk(t.escrows, t.floor.orders, t.floor.accounts.Keys, |t.markets|)
  {
  }

  lemma EscrowTerms(t: Tables, e: Id, sha: string -> int)
    requires Good(t, sha) && e < |t.escrows|
    ensures EscrowOk(t.escrows[e], t.floor.orders, t.floor.accounts.Keys, |t.markets|)
  {
    hide Sum; hide Total; hide Sound; hide MarketsOk; hide ClaimsOk; hide ItemsOk; hide CashOk;
    hide TransfersOk; hide SalesOk; hide ListingsOk; hide EscrowOk;
  }

  lemma SameRowEscrowsOk(escrows: seq<Escrow>, orders: seq<Order>, keys: set<Player>, m: nat, e: Id, row: Escrow)
    requires EscrowsOk(escrows, orders, keys, m) && e < |escrows|
    requires EscrowOk(row, orders, keys, m) && row.order == escrows[e].order
    ensures EscrowsOk(escrows[e := row], orders, keys, m)
  {
    hide EscrowOk;
  }

  /** One escrow row was replaced by one with the same terms, order and excess. */
  lemma EscrowRowKeepsGood(t: Tables, e: Id, row: Escrow, sha: string -> int)
    requires Good(t, sha) && e < |t.escrows|
    requires EscrowOk(row, t.floor.orders, t.floor.accounts.Keys, |t.markets|)
    requires row.market == t.escrows[e].market && row.owner == t.escrows[e].owner && row.order == t.escrows[e].order
    requires row.status.EscrowOrdered? <==> t.escrows[e].status.EscrowOrdered?
    requires row.status.EscrowOrdered? ==> row.tagged == t.escrows[e].tagged && row.requested == t.escrows[e].requested
    ensures Good(t.(escrows := t.escrows[e := row]), sha)
  {
    hide Sum; hide Good; hide EscrowsOk;
    GoodEscrows(t, sha);
    var now := t.escrows[e := row];
    EscrowTerms(t, e, sha);
    SameRowEscrowsOk(t.escrows, t.floor.orders, t.floor.accounts.Keys, |t.markets|, e, row);
    hide EscrowOk;
    forall b
      ensures Sum(now, ExcessIn(t.markets, b)) == Sum(t.escrows, ExcessIn(t.markets, b))
    {
      SumUpdate(t.escrows, e, row, ExcessIn(t.markets, b));
    }
    forall p
      ensures Sum(now, ExcessOf(p)) == Sum(t.escrows, ExcessOf(p))
    {
      SumUpdate(t.escrows, e, row, ExcessOf(p));
    }
    EscrowChangeKeepsGood(t, now, sha);
  }

  lemma NewEscrowOk(escrows: seq<Escrow>, orders: seq<Order>, keys: set<Player>, m: nat, row: Escrow)
    requires EscrowsOk(escrows, orders, keys, m) && EscrowOk(row, orders, keys, m) && row.order.None?
    ensures EscrowsOk(escrows + [row], orders, keys, m)
  {
    hide EscrowOk;
  }

  lemma NewEscrowHoldsNothing(escrows: seq<Escrow>, row: Escrow, markets: seq<Venue>)
    requires !row.status.EscrowOrdered?
    ensures forall b :: Sum(escrows + [row], ExcessIn(markets, b)) == Sum(escrows, ExcessIn(markets, b))
    ensures forall p :: Sum(escrows + [row], ExcessOf(p)) == Sum(escrows, ExcessOf(p))
  {
    hide Sum;
    forall b
      ensures Sum(escrows + [row], ExcessIn(markets, b)) == Sum(escrows, ExcessIn(markets, b))
    {
      SumAppend(escrows, row, ExcessIn(markets, b));
    }
    forall p
      ensures Sum(escrows + [row], ExcessOf(p)) == Sum(escrows, ExcessOf(p))
    {
      SumAppend(escrows, row, ExcessOf(p));
    }
  }

  lemma PrepareEscrowKeepsGood(t: Tables, req: Request, sha: string -> int)
    requires Good(t, sha) && ValidOrder(req) && req.player in t.floor.accounts
    ensures Good(AfterPair(t, PrepareEscrow(t, req)), sha)
  {
    hide Sum; hide Good; hide EscrowsOk;
    var r := PrepareEscrow(t, req);
    if r.Ok? {
      GoodEscrows(t, sha);
      var row := r.value.0.escrows[|t.escrows|];
      NewEscrowOk(t.escrows, t.floor.orders, t.floor.accounts.Keys, |t.markets|, row);
      NewEscrowHoldsNothing(t.escrows, row, t.markets);
      EscrowChangeKeepsGood(t, t.escrows + [row], sha);
    }
  }

  lemma MarkTaggedKeepsGood(t: Tables, e: Id, tagged: int, receipts: int, sha: string -> int)
    requires Good(t, sha)
    ensures Good(After(t, MarkTagged(t, e, tagged, receipts)), sha)
  {
    hide Good; hide EscrowsOk;
    var r := MarkTagged(t, e, tagged, receipts);
    if r.Ok? && r.value != t {
      EscrowTerms(t, e, sha);
      EscrowRowKeepsGood(t, e, r.value.escrows[e], sha);
    }
  }

  lemma CancelEscrowKeepsGood(t: Tables, e: Id, sha: string -> int)
    requires Good(t, sha)
    ensures Good(After(t, CancelEscrow(t, e)), sha)
  {
    hide Good; hide EscrowsOk;
    var r := CancelEscrow(t, e);
    if r.Ok? && r.value != t {
      EscrowTerms(t, e, sha);
      EscrowRowKeepsGood(t, e, r.value.escrows[e], sha);
    }
  }

  lemma CleanEscrowKeepsGood(t: Tables, e: Id, sha: string -> int)
    requires Good(t, sha)
    ensures Good(After(t, CleanEscrow(t, e)), sha)
  {
    hide Good; hide EscrowsOk;
    var r := CleanEscrow(t, e);
    if r.Ok? && r.value != t {
      EscrowTerms(t, e, sha);
      EscrowRowKeepsGood(t, e, r.value.escrows[e], sha);
    }
  }

  // ----- from escrow to order -----

  /** What the sell of an escrow leaves before the escrow's own row and its excess are written. */
  lemma EscrowSells(t: Tables, e: Id, sha: string -> int)
    requires Good(t, sha) && e < |t.escrows| && PricedRows(t.floor)
    requires t.escrows[e].kind.Limit? ==> t.escrows[e].price > 0
    ensures var req := EscrowRequest(t.escrows[e]);
            match PlaceSell(t.floor, t.markets, req)
            case Err(x) => SellRefused(t.floor, t.markets, req, x)
            case Ok((g, x)) => Good(t.(floor := g), sha) && Executed(t.floor, g, t.markets, req, x)
  {
    hide Good; hide PlaceSell; hide Executed; hide Sound; hide PricedRows; hide SellRefused;
    EscrowTerms(t, e, sha);
    var req := EscrowRequest(t.escrows[e]);
    GoodIsSound(t, sha);
    PlaceSellExecutes(t.floor, t.markets, req);
    assert Place(t, req).Ok? <==> PlaceSell(t.floor, t.markets, req).Ok?;
    PlaceKeepsGood(t, req, sha);
  }

  /** The escrow's row once it is ordered, against the order it became. */
  lemma OrderedEscrowsOk(escrows: seq<Escrow>, orders: seq<Order>, now: seq<Order>, keys: set<Player>, m: nat, e: Id)
    requires EscrowsOk(escrows, now, keys, m) && EscrowsOk(escrows, orders, keys, m)
    requires e < |escrows| && escrows[e].status.EscrowTagged? && |now| == |orders| + 1
    requires var o, row := now[|orders|], escrows[e];
             o.side.Sell? && o.owner == row.owner && o.market == row.market && o.kind == row.kind
             && o.price == row.price && o.original == row.requested
    ensures EscrowsOk(escrows[e := escrows[e].(status := EscrowOrdered, order := Some(|orders|))], now, keys, m)
  {
    var done := escrows[e].(status := EscrowOrdered, order := Some(|orders|));
    var after := escrows[e := done];
    forall i | 0 <= i < |after|
      ensures EscrowOk(after[i], now, keys, m) && (i != e ==> after[i].order != done.order)
    {
      assert EscrowOk(escrows[i], now, keys, m) && EscrowOk(escrows[i], orders, keys, m);
    }
  }

  /** The excess of an escrow comes back as a delivery: the goods of its book and its owner's account stay balanced. */
  lemma ExcessKeepsItems(h: Floor, markets: seq<Venue>, escrows: seq<Escrow>, e: Id, done: Escrow)
    requires Sound(h, markets, -1) && ItemsOk(h, markets, escrows) && e < |escrows|
    requires !escrows[e].status.EscrowOrdered? && done.status.EscrowOrdered? && done.requested <= done.tagged
    requires done.market < |markets|
    ensures var r := AddDelivery(h, done.owner, done.market, done.tagged - done.requested, EscrowExcess);
            Sound(r, markets, -1) && ItemsOk(r, markets, escrows[e := done]) && Money(r) == Money(h)
            && forall p :: Position(r, p) == Position(h, p)
  {
    hide Sum; hide Sound; hide Surplus; hide Undelivered; hide Unaccounted; hide Position; hide Money; hide AddDelivery;
    var excess := done.tagged - done.requested;
    var r := AddDelivery(h, done.owner, done.market, excess, EscrowExcess);
    ReturnItems(h, markets, done.owner, done.market, excess, EscrowExcess, -1);
    forall b
      ensures Surplus(r, markets, b) == Sum(escrows[e := done], ExcessIn(markets, b))
    {
      SumUpdate(escrows, e, done, ExcessIn(markets, b));
    }
    forall p
      ensures Unaccounted(r, p) == -Sum(escrows[e := done], ExcessOf(p))
    {
      SumUpdate(escrows, e, done, ExcessOf(p));
    }
  }

  lemma EscrowRow(escrows: seq<Escrow>, orders: seq<Order>, keys: set<Player>, m: nat, e: Id)
    requires EscrowsOk(escrows, orders, keys, m) && e < |escrows|
    ensures EscrowOk(escrows[e], orders, keys, m)
  {
  }

  lemma ExcessKeepsGood(u: Tables, escrows: seq<Escrow>, e: Id, done: Escrow, sha: string -> int)
    requires Good(u, sha) && escrows == u.escrows && e < |escrows|
    requires !escrows[e].status.EscrowOrdered? && done.status.EscrowOrdered?
    requires EscrowsOk(escrows[e := done], u.floor.orders, u.floor.accounts.Keys, |u.markets|)
    ensures var r := AddDelivery(u.floor, done.owner, done.market, done.tagged - done.requested, EscrowExcess);
            Good(u.(floor := r, escrows := escrows[e := done]), sha)
  {
    hide Sum; hide Total; hide Sound; hide MarketsOk; hide ClaimsOk; hide EscrowsOk; hide ItemsOk;
    hide TransfersOk; hide SalesOk; hide ListingsOk; hide Position; hide Money;
    EscrowRow(escrows[e := done], u.floor.orders, u.floor.accounts.Keys, |u.markets|, e);
    var r := AddDelivery(u.floor, done.owner, done.market, done.tagged - done.requested, EscrowExcess);
    ExcessKeepsItems(u.floor, u.markets, escrows, e, done);
    ClaimsSurvive(u.claims, u.floor.deliveries, r.deliveries);
  }

  lemma ExecutedOrder(f: Floor, g: Floor, markets: seq<Venue>, req: Request, x: Execution)
    requires Executed(f, g, markets, req, x)
    ensures x.order == |f.orders| && |g.orders| == |f.orders| + 1 && g.accounts.Keys == f.accounts.Keys
    ensures var o := g.orders[x.order];
            o.side == req.side && o.owner == req.player && o.market == req.market && o.kind == req.kind
            && o.price == (if req.kind.Limit? then req.price else 0) && o.original == req.quantity
  {
    hide Sum; hide Total; hide Sound;
  }

  /** `executeSellEscrow` of a tagged escrow is its sell, the excess, and the escrow's new row. */
  lemma ExecuteEscrowShape(t: Tables, e: Id)
    requires PricedRows(t.floor)
    requires forall i :: 0 <= i < |t.escrows| && t.escrows[i].kind.Limit? ==> t.escrows[i].price > 0
    ensures if e < |t.escrows| && t.escrows[e].status.EscrowTagged? then
              match PlaceSell(t.floor, t.markets, EscrowRequest(t.escrows[e]))
              case Err(x) => ExecuteEscrow(t, e) == Err(x)
              case Ok((g, x)) =>
                var done := t.escrows[e].(status := EscrowOrdered, order := Some(x.order));
                ExecuteEscrow(t, e)
                == Ok((t.(floor := AddDelivery(g, done.owner, done.market, done.tagged - done.requested, EscrowExcess),
                          escrows := t.escrows[e := done]), x))
            else AfterPair(t, ExecuteEscrow(t, e)) == t
  {
    hide PlaceSell; hide PricedRows;
  }

  lemma ExecuteEscrowKeepsGood(t: Tables, e: Id, sha: string -> int)
    requires Good(t, sha) && PricedRows(t.floor)
    requires forall i :: 0 <= i < |t.escrows| && t.escrows[i].kind.Limit? ==> t.escrows[i].price > 0
    ensures Good(AfterPair(t, ExecuteEscrow(t, e)), sha)
  {
    hide PlaceSell; hide Good; hide Executed; hide PricedRows; hide EscrowsOk; hide AddDelivery; hide SellRefused;
    hide ExecuteEscrow;
    ExecuteEscrowShape(t, e);
    if e < |t.escrows| && t.escrows[e].status.EscrowTagged? {
      var row := t.escrows[e];
      EscrowSells(t, e, sha);
      var r := PlaceSell(t.floor, t.markets, EscrowRequest(row));
      if r.Ok? { EscrowBecomesOrder(t, e, r.value.0, r.value.1, sha); }
    }
  }

  lemma EscrowBecomesOrder(t: Tables, e: Id, g: Floor, x: Execution, sha: string -> int)
    requires Good(t, sha) && Good(t.(floor := g), sha) && e < |t.escrows| && t.escrows[e].status.EscrowTagged?
    requires Executed(t.floor, g, t.markets, EscrowRequest(t.escrows[e]), x)
    ensures var done := t.escrows[e].(status := EscrowOrdered, order := Some(x.order));
            Good(t.(floor := AddDelivery(g, done.owner, done.market, done.tagged - done.requested, EscrowExcess),
                    escrows := t.escrows[e := done]), sha)
  {
    hide Good; hide Executed; hide EscrowsOk; hide AddDelivery;
    var row := t.escrows[e];
    ExecutedOrder(t.floor, g, t.markets, EscrowRequest(row), x);
    GoodEscrows(t, sha);
    GoodEscrows(t.(floor := g), sha);
    EscrowTerms(t, e, sha);
    OrderedEscrowsOk(t.escrows, t.floor.orders, g.orders, t.floor.accounts.Keys, |t.markets|, e);
    ExcessKeepsGood(t.(floor := g), t.escrows, e, row.(status := EscrowOrdered, order := Some(x.order)), sha);
  }
}
