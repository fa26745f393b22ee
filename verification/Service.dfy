/**
 The exchange service as it works: rows updated in place inside transactions that commit or
 roll back. Every public method is proved to take the database exactly one `Step` further.
 */
module Service {
  import opened Sums
  import opened Domain
  import opened Matching
  import opened Settlement
  import opened Placement
  import opened Exchange
  import opened Invariants
  import opened StepsMoney
  import opened StepsTrade
  import opened Runs

  function Committed(r: Result<Tables>): Result<bool>
  {
    if r.Ok? then Ok(true) else Err(r.error)
  }

  function CommittedWith<X>(r: Result<(Tables, X)>): Result<X>
  {
    if r.Ok? then Ok(r.value.1) else Err(r.error)
  }

  /** The tables after `ensureAccount` ran as a transaction of its own. */
  function Opening(t: Tables, cfg: Config, p: Player): (u: Tables)
    ensures u == t.(floor := t.floor.(accounts := u.floor.accounts, ledger := u.floor.ledger))
  {
    After(t, EnsureAccount(t, cfg, p))
  }

  class ExchangeService {
    const cfg: Config
    const sha: string -> int

    var accounts: map<Player, int>
    var ledger: seq<Entry>
    var orders: seq<Order>
    var trades: seq<Trade>
    var deliveries: seq<Delivery>
    var books: seq<Book>
    var markets: seq<Venue>
    var bindings: map<string, Id>
    var claims: seq<Claim>
    var escrows: seq<Escrow>
    var transfers: seq<Transfer>
    var listings: seq<Listing>
    var frames: map<string, Id>

    function FloorRows(): Floor
      reads this
    {
      Floor(accounts, ledger, orders, trades, deliveries)
    }

    /** All rows, as a transaction finds them. */
    function Rows(): Tables
      reads this
    {
      Tables(FloorRows(), books, markets, bindings, claims, escrows, transfers, listings, frames)
    }

    ghost predicate Valid()
      reads this
    {
      ConfigOk(cfg) && Good(Rows(), sha) && Priced(Rows())
    }

    constructor (cfg: Config, sha: string -> int)
      requires ConfigOk(cfg)
      ensures Valid() && Rows() == Empty() && this.cfg == cfg && this.sha == sha
    {
      this.cfg, this.sha := cfg, sha;
      accounts, ledger, orders, trades, deliveries := map[], [], [], [], [];
      books, markets, bindings, claims, escrows := [], [], map[], [], [];
      transfers, listings, frames := [], [], map[];
      new;
      EmptyIsGood(sha);
    }

    /** Puts every row back to what it was when the transaction began. */
    method Rollback(begin: Tables)
      modifies this
      ensures Rows() == begin
    {
      RollbackFloor(begin.floor);
      books, markets, bindings, claims, escrows := begin.books, begin.markets, begin.bindings, begin.claims,
        begin.escrows;
      transfers, listings, frames := begin.transfers, begin.listings, begin.frames;
    }

    method RollbackFloor(begin: Floor)
      modifies this`accounts, this`ledger, this`orders, this`trades, this`deliveries
      ensures FloorRows() == begin
    {
      accounts, ledger, orders := begin.accounts, begin.ledger, begin.orders;
      trades, deliveries := begin.trades, begin.deliveries;
    }

    // ----- money -----

    method RecordBalanceChange(p: Player, delta: int, reason: LedgerReason, reference: Option<Id>)
      modifies this`ledger
      ensures ledger == old(ledger) + [Entry(p, delta, reason, reference)]
    {
      ledger := ledger + [Entry(p, delta, reason, reference)];
    }

    method CreditAccount(p: Player, amount: int, reason: LedgerReason, reference: Option<Id>) returns (r: Result<bool>)
      modifies this`accounts, this`ledger
      ensures match Credit(old(FloorRows()), p, amount, reason, reference)
              case Ok(f) => r == Ok(true) && FloorRows() == f
              case Err(e) => r == Err(e) && FloorRows() == old(FloorRows())
    {
      if amount < 0 { return Err(NegativeAmount); }
      if amount == 0 { return Ok(true); }
      if p !in accounts { return Err(AccountMissing); }
      if accounts[p] + amount > INT64_MAX { return Err(BalanceOverflow); }
      accounts := accounts[p := accounts[p] + amount];
      RecordBalanceChange(p, amount, reason, reference);
      r := Ok(true);
    }

    method DebitAccount(p: Player, amount: int, reason: LedgerReason, reference: Option<Id>) returns (r: Result<bool>)
      modifies this`accounts, this`ledger
      ensures match Debit(old(FloorRows()), p, amount, reason, reference)
              case Ok(f) => r == Ok(true) && FloorRows() == f
              case Err(e) => r == Err(e) && FloorRows() == old(FloorRows())
    {
      if amount < 0 { return Err(NegativeAmount); }
      if amount == 0 { return Ok(true); }
      if p !in accounts || accounts[p] < amount { return Err(InsufficientBalance); }
      accounts := accounts[p := accounts[p] - amount];
      RecordBalanceChange(p, -amount, reason, reference);
      r := Ok(true);
    }

    method Deliver(p: Player, market: Id, quantity: int, reason: DeliveryReason)
      modifies this`deliveries
      ensures FloorRows() == AddDelivery(old(FloorRows()), p, market, quantity, reason)
    {
      if quantity > 0 {
        deliveries := deliveries + [Delivery(p, market, quantity, 0, 0, reason)];
      }
    }

    // ----- matching -----

    /** The buyer's side of one fill, with the caller's running copy of the buyer's balance. */
    method PayForFill(req: Request, taker: Id, price: int, fill: int, available: int) returns (r: Result<int>)
      requires req.player in accounts && available == accounts[req.player]
      modifies this`accounts, this`ledger
      ensures forall ask: Order | ask.price == price ::
                match BuyPay(old(FloorRows()), req, taker, ask, fill)
                case Ok(f) => FloorRows() == f && req.player in accounts && r == Ok(accounts[req.player])
                case Err(e) => r == Err(e)
    {
      if req.kind.Market? {
        var cost :- Product(price, fill);
        var _ :- DebitAccount(req.player, cost, MarketBuyTrade, Some(taker));
        r := Ok(available - cost);
      } else {
        var refund :- Product(req.price - price, fill);
        var _ :- CreditAccount(req.player, refund, PriceImprovementRefund, Some(taker));
        r := Ok(available + refund);
      }
    }

    /** The ask's side of one fill, from the row the query returned. */
    method SettleAsk(req: Request, taker: Id, id: Id, ask: Order, fill: int) returns (r: Result<int>)
      requires id < |orders| && orders[id] == ask
      modifies this`orders, this`accounts, this`ledger, this`deliveries, this`trades
      ensures match BuySettle(old(FloorRows()), req, taker, id, fill)
              case Ok(f) => FloorRows() == f && r == Ok(ask.price * fill)
              case Err(e) => r == Err(e)
    {
      var left := ask.remaining - fill;
      orders := orders[id := orders[id].(remaining := left, status := if left == 0 then Filled else Partial)];
      var cost :- Product(ask.price, fill);
      var _ :- CreditAccount(ask.owner, cost, TradeProceeds, Some(id));
      Deliver(req.player, req.market, fill, TradeBuy);
      trades := trades + [Trade(req.market, taker, id, req.player, ask.owner, ask.price, fill)];
      r := Ok(cost);
    }

    /** One fill of an incoming buy. */
    method FillAsk(req: Request, taker: Id, id: Id, ask: Order, fill: int, available: int)
      returns (r: Result<(int, int)>)
      requires req.player in accounts && available == accounts[req.player]
      requires id < |orders| && orders[id] == ask && ask.owner != req.player
      modifies this`orders, this`accounts, this`ledger, this`deliveries, this`trades
      ensures match BuyFill(old(FloorRows()), req, taker, id, fill)
              case Ok(f) =>
                && FloorRows() == f && req.player in accounts && r == Ok((accounts[req.player], ask.price * fill))
                && |orders| == |old(orders)| && forall k :: 0 <= k < |orders| && k != id ==> orders[k] == old(orders[k])
              case Err(e) => r == Err(e)
    {
      hide BuySettle; hide BuyPay;
      var balance :- PayForFill(req, taker, ask.price, fill, available);
      ghost var paid := FloorRows();
      PaymentKeepsRows(old(FloorRows()), req, taker, ask, fill);
      var cost :- SettleAsk(req, taker, id, ask, fill);
      SettlementKeepsOthers(paid, req, taker, id, fill);
      r := Ok((balance, cost));
    }

    /** A selected row is still what it was when it was selected, and not the taker's own. */
    ghost predicate Fresh(rows: seq<Order>, ids: seq<Id>, i: nat, p: Player)
      reads this
    {
      && |orders| == |rows|
      && forall k :: i <= k < |ids| ==> ids[k] < |rows| && orders[ids[k]] == rows[ids[k]] && rows[ids[k]].owner != p
                                        && rows[ids[k]].price > 0
    }

    /** The matching loop of `placeBuy` over the rows it selected. */
    method MatchBuy(req: Request, taker: Id, asks: seq<Id>, available: int) returns (r: Result<Cursor>)
      requires req.player in accounts && available == accounts[req.player]
      requires Fresh(orders, asks, 0, req.player)
      requires forall j, k :: 0 <= j < k < |asks| ==> asks[j] != asks[k]
      requires ValidMakers(FloorRows(), asks)
      modifies this`orders, this`accounts, this`ledger, this`deliveries, this`trades
      ensures match BuyLoop(old(FloorRows()), req, taker, asks, Cursor(req.quantity, 0, 0))
              case Ok((f, c)) => FloorRows() == f && r == Ok(c)
              case Err(e) => r == Err(e)
    {
      hide BuyLoop; hide BuyFill;
      var rows := orders;
      ghost var begin := FloorRows();
      var balance, remaining, filled, gross := available, req.quantity, 0, 0;
      var i := 0;
      assert asks[0..] == asks;
      while i < |asks| && remaining != 0
        invariant i <= |asks| && Fresh(rows, asks, i, req.player)
        invariant req.player in accounts && balance == accounts[req.player]
        invariant ValidMakers(FloorRows(), asks[i..])
        invariant BuyLoop(begin, req, taker, asks, Cursor(req.quantity, 0, 0))
               == BuyLoop(FloorRows(), req, taker, asks[i..], Cursor(remaining, filled, gross))
      {
        var ask := rows[asks[i]];
        BuyLoopUnfolds(FloorRows(), req, taker, asks, i, Cursor(remaining, filled, gross));
        var fill := Min(remaining, ask.remaining);
        if req.kind.Market? {
          fill := Min(fill, balance / ask.price);
          if fill <= 0 { break; }
        }
        var paid :- FillAsk(req, taker, asks[i], ask, fill, balance);
        balance := paid.0;
        remaining, filled, gross, i := remaining - fill, filled + fill, gross + paid.1, i + 1;
      }
      if i == |asks| || remaining == 0 {
        BuyLoopEnds(FloorRows(), req, taker, asks[i..], Cursor(remaining, filled, gross));
      }
      r := Ok(Cursor(remaining, filled, gross));
    }

    /** The body of `placeBuy`; an error leaves its work for the caller to roll back. */
    method BuyRows(req: Request) returns (r: Result<Execution>)
      requires PricedRows(FloorRows()) && (req.kind.Limit? ==> req.price > 0)
      modifies this`orders, this`accounts, this`ledger, this`deliveries, this`trades
      ensures match PlaceBuy(old(FloorRows()), markets, req)
              case Ok((f, x)) => FloorRows() == f && r == Ok(x)
              case Err(e) => r == Err(e)
    {
      hide BuyLoop; hide Candidates; hide PricedRows;
      var book :- ActiveBook(markets, req.market);
      var available :- Balance(FloorRows(), req.player);
      var reserved := 0;
      if req.kind.Limit? {
        reserved :- Product(req.price, req.quantity);
        if available < reserved { return Err(InsufficientBalance); }
      }
      var taker := |orders|;
      orders := orders + [NewOrder(req, reserved)];
      if reserved > 0 {
        var _ := DebitAccount(req.player, reserved, BuyOrderReserve, Some(taker));
        available := available - reserved;
      }
      var asks := Candidates(orders, markets, MakerQuery(req, book));
      AsksAreFresh(old(FloorRows()), FloorRows(), markets, req, book);
      var c :- MatchBuy(req, taker, asks, available);
      var current := 0;
      if req.kind.Limit? { current :- Product(req.price, c.remaining); }
      orders := orders[taker := orders[taker].(remaining := if req.kind.Limit? then c.remaining else 0,
                                               reserved := current, status := TakerStatus(req.kind, req.quantity, c))];
      r := Ok(Report(FloorRows(), req, taker, c));
    }

    /** One fill of an incoming sell, from the row the query returned. */
    method FillBid(req: Request, taker: Id, id: Id, bid: Order, fill: int) returns (r: Result<int>)
      requires id < |orders| && orders[id] == bid
      modifies this`orders, this`accounts, this`ledger, this`deliveries, this`trades
      ensures match SellFill(old(FloorRows()), req, taker, id, fill)
              case Ok(f) =>
                && FloorRows() == f && r == Ok(bid.price * fill)
                && |orders| == |old(orders)| && forall k :: 0 <= k < |orders| && k != id ==> orders[k] == old(orders[k])
              case Err(e) => r == Err(e)
    {
      var left := bid.remaining - fill;
      var cost :- Product(bid.price, fill);
      var reservedAfter := bid.reserved - cost;
      if reservedAfter < 0 { return Err(ReserveInvariant); }
      orders := orders[id := orders[id].(remaining := left, reserved := reservedAfter,
                                         status := if left == 0 then Filled else Partial)];
      var _ :- CreditAccount(req.player, cost, TradeProceeds, Some(taker));
      Deliver(bid.owner, req.market, fill, TradeBuy);
      trades := trades + [Trade(req.market, id, taker, bid.owner, req.player, bid.price, fill)];
      r := Ok(cost);
    }

    /** The matching loop of `placeSellLocked` over the rows it selected. */
    method MatchSell(req: Request, taker: Id, bids: seq<Id>) returns (r: Result<Cursor>)
      requires Fresh(orders, bids, 0, req.player)
      requires forall j, k :: 0 <= j < k < |bids| ==> bids[j] != bids[k]
      requires ValidMakers(FloorRows(), bids)
      modifies this`orders, this`accounts, this`ledger, this`deliveries, this`trades
      ensures match SellLoop(old(FloorRows()), req, taker, bids, Cursor(req.quantity, 0, 0))
              case Ok((f, c)) => FloorRows() == f && r == Ok(c)
              case Err(e) => r == Err(e)
    {
      hide SellLoop; hide SellFill;
      var rows := orders;
      ghost var begin := FloorRows();
      var remaining, filled, gross := req.quantity, 0, 0;
      var i := 0;
      assert bids[0..] == bids;
      while i < |bids| && remaining != 0
        invariant i <= |bids| && Fresh(rows, bids, i, req.player)
        invariant ValidMakers(FloorRows(), bids[i..])
        invariant SellLoop(begin, req, taker, bids, Cursor(req.quantity, 0, 0))
               == SellLoop(FloorRows(), req, taker, bids[i..], Cursor(remaining, filled, gross))
      {
        var bid := rows[bids[i]];
        SellLoopUnfolds(FloorRows(), req, taker, bids, i, Cursor(remaining, filled, gross));
        var fill := Min(remaining, bid.remaining);
        var proceeds :- FillBid(req, taker, bids[i], bid, fill);
        remaining, filled, gross, i := remaining - fill, filled + fill, gross + proceeds, i + 1;
      }
      SellLoopEnds(FloorRows(), req, taker, bids[i..], Cursor(remaining, filled, gross));
      r := Ok(Cursor(remaining, filled, gross));
    }

    /** `placeSellLocked`; an error leaves its work for the caller to roll back. */
    method SellRows(req: Request) returns (r: Result<Execution>)
      requires PricedRows(FloorRows()) && (req.kind.Limit? ==> req.price > 0)
      modifies this`orders, this`accounts, this`ledger, this`deliveries, this`trades
      ensures match PlaceSell(old(FloorRows()), markets, req)
              case Ok((f, x)) => FloorRows() == f && r == Ok(x)
              case Err(e) => r == Err(e)
    {
      hide SellLoop; hide Candidates; hide PricedRows;
      var book :- ActiveBook(markets, req.market);
      var _ :- Balance(FloorRows(), req.player);
      var taker := |orders|;
      orders := orders + [NewOrder(req, 0)];
      var bids := Candidates(orders, markets, MakerQuery(req, book));
      AsksAreFresh(old(FloorRows()), FloorRows(), markets, req, book);
      var c :- MatchSell(req, taker, bids);
      if req.kind.Market? && c.remaining > 0 {
        Deliver(req.player, req.market, c.remaining, MarketRemainder);
      }
      orders := orders[taker := orders[taker].(remaining := if req.kind.Limit? then c.remaining else 0,
                                               status := TakerStatus(req.kind, req.quantity, c))];
      r := Ok(Report(FloorRows(), req, taker, c));
    }

    // ----- accounts -----

    method OpenAccount(p: Player) returns (r: Result<bool>)
      requires Valid()
      modifies this`accounts, this`ledger
      ensures Valid() && Rows() == Opening(old(Rows()), cfg, p) && (p != "" ==> p in accounts)
      ensures r == if p == "" then Err(IdentityIncomplete) else Ok(true)
      ensures r.Err? ==> Rows() == old(Rows())
    {
      hide Good; hide Priced;
      EnsureAccountKeepsGood(Rows(), cfg, p, sha);
      GoodIsPriced(Opening(Rows(), cfg, p), sha);
      if p == "" { return Err(IdentityIncomplete); }
      if p !in accounts {
        accounts := accounts[p := cfg.initialBalance];
        RecordBalanceChange(p, cfg.initialBalance, AccountOpened, None);
      }
      r := Ok(true);
    }

    method AddBalance(p: Player, delta: int) returns (r: Result<int>)
      requires Valid()
      modifies this
      ensures Rows() == Step(old(Rows()), cfg, sha, DoAddBalance(p, delta))
      ensures Valid()
      ensures if p == "" then r == Err(IdentityIncomplete) && Rows() == old(Rows())
              else
                var t := Opening(old(Rows()), cfg, p);
                Rows() == After(t, AdjustBalance(t, p, delta))
                && match AdjustBalance(t, p, delta)
                   case Ok(_) => p in accounts && r == Ok(accounts[p])
                   case Err(e) => r == Err(e)
    {
      hide Good; hide Priced; hide EnsureAccount; hide Step;
      AddBalanceIsStep(Rows(), cfg, sha, p, delta);
      var _ :- OpenAccount(p);
      AdjustBalanceKeepsGood(Rows(), p, delta, sha);
      GoodIsPriced(After(Rows(), AdjustBalance(Rows(), p, delta)), sha);
      var current := accounts[p];
      if delta < -current { return Err(BalanceNegative); }
      if delta > 0 && current > INT64_MAX - delta { return Err(BalanceOverflow); }
      accounts := accounts[p := accounts[p] + delta];
      RecordBalanceChange(p, delta, AdminAdjustment, None);
      r := Ok(current + delta);
    }

    // ----- orders -----

    method PlaceOrder(req: Request) returns (r: Result<Execution>)
      requires Valid()
      modifies this
      ensures Rows() == Step(old(Rows()), cfg, sha, DoPlace(req))
      ensures Valid()
      ensures match Validate(cfg, req)
              case Some(e) => r == Err(e) && Rows() == old(Rows())
              case None =>
                var t := Opening(old(Rows()), cfg, req.player);
                Rows() == AfterPair(t, Place(t, req)) && r == CommittedWith(Place(t, req))
    {
      hide Good; hide PlaceBuy; hide PlaceSell; hide Validate; hide EnsureAccount; hide Step;
      PlaceIsStep(Rows(), cfg, sha, req);
      var refused := Validate(cfg, req);
      if refused.Some? { return Err(refused.value); }
      ValidatedIsValid(cfg, req);
      ValidatedHasPlayer(cfg, req);
      var _ := OpenAccount(req.player);
      PlaceKeepsGood(Rows(), req, sha);
      GoodIsPriced(AfterPair(Rows(), Place(Rows(), req)), sha);
      var begin := Rows();
      if req.side.Buy? { r := BuyRows(req); } else { r := SellRows(req); }
      if r.Err? { Rollback(begin); }
    }

    /** Gives back what a resting order holds and cancels it. */
    method ReleaseRow(id: Id, refund: LedgerReason, back: DeliveryReason) returns (r: Result<bool>)
      requires id < |orders|
      modifies this`orders, this`accounts, this`ledger, this`deliveries
      ensures |orders| == |old(orders)|
      ensures match Release(old(FloorRows()), id, refund, back)
              case Ok(f) => FloorRows() == f && r == Ok(true)
              case Err(e) => r == Err(e)
    {
      var o := orders[id];
      if o.side.Buy? {
        var _ :- CreditAccount(o.owner, o.reserved, refund, Some(id));
      } else if o.remaining > 0 {
        Deliver(o.owner, o.market, o.remaining, back);
      }
      orders := orders[id := o.(remaining := 0, reserved := 0, status := Canceled)];
      r := Ok(true);
    }

    method CancelOrder(id: Id, p: Player, administrator: bool) returns (r: Result<bool>)
      requires Valid()
      modifies this
      ensures Rows() == Step(old(Rows()), cfg, sha, DoCancel(id, p, administrator))
      ensures Valid() && Rows() == After(old(Rows()), Exchange.CancelOrder(old(Rows()), id, p, administrator))
      ensures r == Committed(Exchange.CancelOrder(old(Rows()), id, p, administrator))
    {
      hide Good; hide Priced; hide Release;
      CancelOrderKeepsGood(Rows(), id, p, administrator, sha);
      GoodIsPriced(After(Rows(), Exchange.CancelOrder(Rows(), id, p, administrator)), sha);
      if id >= |orders| { return Err(OrderMissing); }
      if !administrator && orders[id].owner != p { return Err(NotOwner); }
      if !Resting(orders[id]) { return Err(OrderNotOpen); }
      var begin := Rows();
      r := ReleaseRow(id, OrderCancelRefund, OrderCanceled);
      if r.Err? { Rollback(begin); }
    }

    method BuyFundingRequired(req: Request) returns (r: Result<int>)
      requires Valid()
      ensures match Validate(cfg, req)
              case Some(e) => r == Err(e)
              case None => r == BuyFunding(FloorRows(), markets, req)
    {
      hide Good; hide Priced; hide Validate; hide Candidates;
      var refused := Validate(cfg, req);
      if refused.Some? { return Err(refused.value); }
      if req.side.Sell? { return Err(NotABuy); }
      if req.market >= |markets| || !markets[req.market].active { return Err(MarketInactive); }
      if req.kind.Limit? { return Product(req.price, req.quantity); }
      var asks := Candidates(orders, markets, MakerQuery(req, markets[req.market].book));
      var remaining, required := req.quantity, 0;
      var i := 0;
      assert asks[0..] == asks;
      while i < |asks| && remaining != 0
        invariant i <= |asks|
        invariant FundingLoop(orders, asks, req.quantity, 0) == FundingLoop(orders, asks[i..], remaining, required)
      {
        assert asks[i..][0] == asks[i] && asks[i..][1..] == asks[i + 1..];
        var fill := Min(remaining, orders[asks[i]].remaining);
        var cost :- Product(orders[asks[i]].price, fill);
        if required > INT64_MAX - cost { return Err(FundingTooLarge); }
        required, remaining, i := required + cost, remaining - fill, i + 1;
      }
      r := Ok(required);
    }

    // ----- markets -----

    method ActivateMarket(target: string, kind: TargetKind, item: Item) returns (r: Result<Id>)
      requires Valid()
      modifies this
      ensures Rows() == Step(old(Rows()), cfg, sha, DoActivate(target, kind, item))
      ensures Valid() && Rows() == AfterPair(old(Rows()), Activate(old(Rows()), sha, target, kind, item))
      ensures r == CommittedWith(Activate(old(Rows()), sha, target, kind, item))
    {
      hide Good; hide Priced; hide Fingerprint; hide FindBook; hide FindResumable; hide Step;
      ActivateIsStep(Rows(), cfg, sha, target, kind, item);
      ActivateKeepsGood(Rows(), sha, target, kind, item);
      GoodIsPriced(AfterPair(Rows(), Activate(Rows(), sha, target, kind, item)), sha);
      if target == "" || item.kind == "" { return Err(IdentityIncomplete); }
      if target in bindings { return Err(TargetBound); }
      var begin := Rows();
      var key := sha(Fingerprint(item));
      var found := FindBook(books, key, |books|);
      var book := if found.Some? then found.value else |books|;
      if found.None? { books := books + [Book(item, key)]; }
      if books[book].item != item {
        Rollback(begin);
        return Err(FingerprintCollision);
      }
      var resumable := FindResumable(markets, target, kind, book, |markets|);
      var id := if resumable.Some? then resumable.value else |markets|;
      if resumable.Some? {
        markets := markets[id := markets[id].(active := true, reopenable := false)];
      } else {
        markets := markets + [Venue(book, target, kind, item, true, false)];
      }
      bindings := bindings[target := id];
      r := Ok(id);
    }

    method CloseMarket(m: Id) returns (r: Result<bool>)
      requires Valid()
      modifies this
      ensures Rows() == Step(old(Rows()), cfg, sha, DoClose(m))
      ensures Valid() && Rows() == After(old(Rows()), Close(old(Rows()), m))
      ensures r == Committed(Close(old(Rows()), m))
    {
      hide Good; hide Priced;
      CloseKeepsGood(Rows(), m, sha);
      GoodIsPriced(After(Rows(), Close(Rows(), m)), sha);
      if m >= |markets| { return Err(MarketMissing); }
      var v := markets[m];
      if !v.active {
        bindings := UnbindAll(bindings, m);
        return Ok(true);
      }
      if !(v.target in bindings && bindings[v.target] == m) { return Err(BindingMissing); }
      bindings := bindings - {v.target};
      markets := markets[m := v.(active := false, reopenable := true)];
      r := Ok(true);
    }

    method RetireMarket(m: Id) returns (r: Result<bool>)
      requires Valid()
      modifies this
      ensures Rows() == Step(old(Rows()), cfg, sha, DoRetire(m))
      ensures Valid() && Rows() == After(old(Rows()), Retire(old(Rows()), m))
      ensures r == Committed(Retire(old(Rows()), m))
    {
      hide Good; hide Priced;
      RetireKeepsGood(Rows(), m, sha);
      GoodIsPriced(After(Rows(), Retire(Rows(), m)), sha);
      if m >= |markets| { return Err(MarketMissing); }
      var begin := Rows();
      r := RetireRows(m);
      if r.Err? { Rollback(begin); }
    }

    method RetireRows(m: Id) returns (r: Result<bool>)
      requires m < |markets|
      modifies this`orders, this`accounts, this`ledger, this`deliveries, this`bindings, this`markets
      ensures match Retire(old(Rows()), m)
              case Ok(t) => Rows() == t && r == Ok(true)
              case Err(e) => r == Err(e)
    {
      hide Release; hide RestingOf; hide ReleaseAll;
      var ids := RestingOf(orders, m, |orders|);
      ghost var begin := FloorRows();
      var i := 0;
      assert ids[0..] == ids;
      while i < |ids|
        invariant i <= |ids| && |orders| == |begin.orders|
        invariant Rows() == old(Rows()).(floor := FloorRows())
        invariant ReleaseAll(begin, ids) == ReleaseAll(FloorRows(), ids[i..])
      {
        ReleaseAllUnfolds(FloorRows(), ids, i);
        var _ :- ReleaseRow(ids[i], MarketCloseRefund, MarketClosed);
        i := i + 1;
      }
      ReleaseAllEnds(FloorRows());
      var v := markets[m];
      if v.active && !(v.target in bindings && bindings[v.target] == m) { return Err(BindingMissing); }
      bindings := Unbind(bindings, v.target, m);
      markets := markets[m := v.(active := false, reopenable := false)];
      r := Ok(true);
    }

    // ----- delivery claims -----

    method PrepareDeliveryClaim(d: Id, p: Player, quantity: int) returns (r: Result<Id>)
      requires Valid()
      modifies this
      ensures Rows() == Step(old(Rows()), cfg, sha, DoPrepareClaim(d, p, quantity))
      ensures Valid() && Rows() == AfterPair(old(Rows()), PrepareClaim(old(Rows()), d, p, quantity))
      ensures r == CommittedWith(PrepareClaim(old(Rows()), d, p, quantity))
    {
      hide Good; hide Priced;
      PrepareClaimKeepsGood(Rows(), d, p, quantity, sha);
      GoodIsPriced(AfterPair(Rows(), PrepareClaim(Rows(), d, p, quantity)), sha);
      if quantity <= 0 || p == "" { return Err(IdentityIncomplete); }
      if d >= |deliveries| { return Err(DeliveryMissing); }
      var row := deliveries[d];
      if row.owner != p { return Err(NotOwner); }
      var available := row.quantity - row.claimed - row.reserved;
      if available <= 0 { return Err(NothingToClaim); }
      var prepared := Min(quantity, available);
      r := Ok(|claims|);
      claims := claims + [Claim(d, p, prepared, 0, ClaimPrepared, false)];
      deliveries := deliveries[d := row.(reserved := row.reserved + prepared)];
    }

    method CompleteDeliveryClaim(c: Id, delivered: int) returns (r: Result<bool>)
      requires Valid()
      modifies this
      ensures Rows() == Step(old(Rows()), cfg, sha, DoCompleteClaim(c, delivered))
      ensures Valid() && Rows() == After(old(Rows()), CompleteClaim(old(Rows()), c, delivered))
      ensures r == Committed(CompleteClaim(old(Rows()), c, delivered))
      ensures r != Err(ReservationInvariant)
    {
      hide Good; hide Priced;
      CompleteClaimKeepsGood(Rows(), c, delivered, sha);
      GoodIsPriced(After(Rows(), CompleteClaim(Rows(), c, delivered)), sha);
      if delivered < 0 { return Err(NegativeAmount); }
      if c >= |claims| { return Err(ClaimMissing); }
      var claim := claims[c];
      if !claim.status.ClaimPrepared? {
        if (claim.status.ClaimApplied? && claim.applied == delivered)
           || (claim.status.ClaimCanceled? && delivered == 0) {
          return Ok(true);
        }
        return Err(ClaimCompletedDifferently);
      }
      if delivered > claim.quantity { return Err(ClaimTooLarge); }
      if claim.delivery >= |deliveries| { return Err(DeliveryMissing); }
      var row := deliveries[claim.delivery];
      if row.reserved < claim.quantity || row.claimed + delivered > row.quantity { return Err(ReservationInvariant); }
      deliveries := deliveries[claim.delivery :=
        row.(claimed := row.claimed + delivered, reserved := row.reserved - claim.quantity)];
      if delivered == 0 {
        claims := claims[c := claim.(applied := 0, status := ClaimCanceled, cleaned := true)];
      } else {
        claims := claims[c := claim.(applied := delivered, status := ClaimApplied)];
      }
      r := Ok(true);
    }

    method MarkDeliveryClaimCleaned(c: Id) returns (r: Result<bool>)
      requires Valid()
      modifies this
      ensures Rows() == Step(old(Rows()), cfg, sha, DoCleanClaim(c))
      ensures Valid() && Rows() == After(old(Rows()), CleanClaim(old(Rows()), c))
      ensures r == Committed(CleanClaim(old(Rows()), c))
    {
      hide Good; hide Priced;
      CleanClaimKeepsGood(Rows(), c, sha);
      GoodIsPriced(After(Rows(), CleanClaim(Rows(), c)), sha);
      if c >= |claims| || !claims[c].status.ClaimApplied? { return Err(ClaimNotApplied); }
      claims := claims[c := claims[c].(cleaned := true)];
      r := Ok(true);
    }

    // ----- sell escrows -----

    method PrepareSellEscrow(req: Request) returns (r: Result<Id>)
      requires Valid()
      modifies this
      ensures Rows() == Step(old(Rows()), cfg, sha, DoPrepareEscrow(req))
      ensures Valid()
      ensures match Validate(cfg, req)
              case Some(e) => r == Err(e) && Rows() == old(Rows())
              case None =>
                if req.side.Buy? then r == Err(NotASell) && Rows() == old(Rows())
                else
                  var t := Opening(old(Rows()), cfg, req.player);
                  Rows() == AfterPair(t, PrepareEscrow(t, req)) && r == CommittedWith(PrepareEscrow(t, req))
    {
      hide Good; hide Priced; hide Validate; hide EnsureAccount;
      var refused := Validate(cfg, req);
      if refused.Some? { return Err(refused.value); }
      if req.side.Buy? { return Err(NotASell); }
      ValidatedIsValid(cfg, req);
      ValidatedHasPlayer(cfg, req);
      var _ := OpenAccount(req.player);
      PrepareEscrowKeepsGood(Rows(), req, sha);
      GoodIsPriced(AfterPair(Rows(), PrepareEscrow(Rows(), req)), sha);
      if req.market >= |markets| || !markets[req.market].active { return Err(MarketInactive); }
      r := Ok(|escrows|);
      escrows := escrows + [Escrow(req.market, req.player, req.name, req.kind, if req.kind.Limit? then req.price else 0,
                                   req.quantity, 0, 0, EscrowPrepared, None, false)];
    }

    method MarkSellEscrowTagged(e: Id, tagged: int, receipts: int) returns (r: Result<bool>)
      requires Valid()
      modifies this
      ensures Rows() == Step(old(Rows()), cfg, sha, DoMarkTagged(e, tagged, receipts))
      ensures Valid() && Rows() == After(old(Rows()), MarkTagged(old(Rows()), e, tagged, receipts))
      ensures r == Committed(MarkTagged(old(Rows()), e, tagged, receipts))
    {
      hide Good; hide Priced;
      MarkTaggedKeepsGood(Rows(), e, tagged, receipts, sha);
      GoodIsPriced(After(Rows(), MarkTagged(Rows(), e, tagged, receipts)), sha);
      if tagged <= 0 || receipts <= 0 { return Err(QuantityRange); }
      if e >= |escrows| { return Err(EscrowMissing); }
      var row := escrows[e];
      if tagged < row.requested { return Err(EscrowTooSmall); }
      if row.status.EscrowTagged? && row.tagged == tagged && row.receipts == receipts { return Ok(true); }
      if !row.status.EscrowPrepared? { return Err(EscrowNotPrepared); }
      escrows := escrows[e := row.(tagged := tagged, receipts := receipts, status := EscrowTagged)];
      r := Ok(true);
    }

    method ExecuteSellEscrow(e: Id) returns (r: Result<Execution>)
      requires Valid()
      modifies this
      ensures Rows() == Step(old(Rows()), cfg, sha, DoExecuteEscrow(e))
      ensures Valid() && Rows() == AfterPair(old(Rows()), ExecuteEscrow(old(Rows()), e))
      ensures r == CommittedWith(ExecuteEscrow(old(Rows()), e))
    {
      hide Good; hide PlaceSell; hide PricedRows; hide Step;
      ExecuteIsStep(Rows(), cfg, sha, e);
      ExecuteEscrowKeepsGood(Rows(), e, sha);
      GoodIsPriced(AfterPair(Rows(), ExecuteEscrow(Rows(), e)), sha);
      if e >= |escrows| { return Err(EscrowMissing); }
      var row := escrows[e];
      if row.status.EscrowOrdered? {
        if row.order.None? || row.order.value >= |orders| { return Err(OrderMissing); }
        var id := row.order.value;
        var balance :- Balance(FloorRows(), row.owner);
        return Ok(Execution(id, orders[id].original, Sum(trades, SoldUnits(id)), orders[id].remaining,
                            Sum(trades, SoldValue(id)), balance));
      }
      if !row.status.EscrowTagged? { return Err(EscrowNotTagged); }
      var begin := Rows();
      r := SellRows(EscrowRequest(row));
      if r.Err? {
        Rollback(begin);
        return;
      }
      if row.tagged > row.requested { Deliver(row.owner, row.market, row.tagged - row.requested, EscrowExcess); }
      escrows := escrows[e := row.(status := EscrowOrdered, order := Some(r.value.order))];
    }

    method CancelSellEscrow(e: Id) returns (r: Result<bool>)
      requires Valid()
      modifies this
      ensures Rows() == Step(old(Rows()), cfg, sha, DoCancelEscrow(e))
      ensures Valid() && Rows() == After(old(Rows()), CancelEscrow(old(Rows()), e))
      ensures r == Committed(CancelEscrow(old(Rows()), e))
    {
      hide Good; hide Priced;
      CancelEscrowKeepsGood(Rows(), e, sha);
      GoodIsPriced(After(Rows(), CancelEscrow(Rows(), e)), sha);
      if e >= |escrows| { return Err(EscrowMissing); }
      if escrows[e].status.EscrowCanceled? { return Ok(true); }
      if !escrows[e].status.EscrowPrepared? { return Err(EscrowNotPrepared); }
      escrows := escrows[e := escrows[e].(status := EscrowCanceled, cleaned := true)];
      r := Ok(true);
    }

    method MarkSellEscrowCleaned(e: Id) returns (r: Result<bool>)
      requires Valid()
      modifies this
      ensures Rows() == Step(old(Rows()), cfg, sha, DoCleanEscrow(e))
      ensures Valid() && Rows() == After(old(Rows()), CleanEscrow(old(Rows()), e))
      ensures r == Committed(CleanEscrow(old(Rows()), e))
    {
      hide Good; hide Priced;
      CleanEscrowKeepsGood(Rows(), e, sha);
      GoodIsPriced(After(Rows(), CleanEscrow(Rows(), e)), sha);
      if e >= |escrows| || !escrows[e].status.EscrowOrdered? { return Err(EscrowNotOrdered); }
      escrows := escrows[e := escrows[e].(cleaned := true)];
      r := Ok(true);
    }

    // ----- economy transfers -----

    method PrepareEconomyTransfer(p: Player, name: string, direction: Direction, cents: int, units: int,
                                  before: Option<int>) returns (r: Result<Id>)
      requires Valid()
      modifies this
      ensures Rows() == Step(old(Rows()), cfg, sha, DoPrepareTransfer(p, name, direction, cents, units, before))
      ensures Valid()
      ensures match TransferRefused(p, name, cents, units)
              case Some(e) => r == Err(e) && Rows() == old(Rows())
              case None =>
                var t := Opening(old(Rows()), cfg, p);
                var x := PrepareTransfer(t, p, name, direction, cents, units, before);
                Rows() == AfterPair(t, x) && r == CommittedWith(x)
    {
      hide Good; hide Priced; hide Debit; hide EnsureAccount; hide Step;
      TransferIsStep(Rows(), cfg, sha, p, name, direction, cents, units, before);
      var refused := TransferRefused(p, name, cents, units);
      if refused.Some? { return Err(refused.value); }
      var _ := OpenAccount(p);
      PrepareTransferKeepsGood(Rows(), p, name, direction, cents, units, before, sha);
      GoodIsPriced(AfterPair(Rows(), PrepareTransfer(Rows(), p, name, direction, cents, units, before)), sha);
      var begin := Rows();
      var id := |transfers|;
      transfers := transfers + [Transfer(p, name, direction, cents, units, TransferPrepared, before, None)];
      if direction.Withdraw? {
        var debited := DebitAccount(p, cents, UmoneyWithdrawReserved, Some(id));
        if debited.Err? {
          Rollback(begin);
          return Err(debited.error);
        }
      }
      r := Ok(id);
    }

    method MarkEconomyTransferExternalApplied(i: Id, balance: int) returns (r: Result<bool>)
      requires Valid()
      modifies this
      ensures Rows() == Step(old(Rows()), cfg, sha, DoMarkExternalApplied(i, balance))
      ensures Valid() && Rows() == After(old(Rows()), MarkExternalApplied(old(Rows()), i, balance))
      ensures r == Committed(MarkExternalApplied(old(Rows()), i, balance))
    {
      hide Good; hide Priced;
      MarkExternalAppliedKeepsGood(Rows(), i, balance, sha);
      GoodIsPriced(After(Rows(), MarkExternalApplied(Rows(), i, balance)), sha);
      if i >= |transfers| { return Err(TransferMissing); }
      var row := transfers[i];
      if row.status.TransferFailed? || row.status.TransferBlocked? { return Err(TransferClosed); }
      if row.status.TransferPrepared? {
        transfers := transfers[i := row.(status := ExternalApplied, after := Some(balance))];
      }
      r := Ok(true);
    }

    method CompleteEconomyTransfer(i: Id) returns (r: Result<int>)
      requires Valid()
      modifies this
      ensures Rows() == Step(old(Rows()), cfg, sha, DoCompleteTransfer(i))
      ensures Valid() && Rows() == After(old(Rows()), CompleteTransfer(old(Rows()), i))
      ensures match CompleteTransfer(old(Rows()), i)
              case Ok(_) => i < |transfers| && r == Balance(FloorRows(), transfers[i].owner)
              case Err(e) => r == Err(e)
    {
      hide Good; hide Priced; hide Credit;
      CompleteTransferKeepsGood(Rows(), i, sha);
      GoodIsPriced(After(Rows(), CompleteTransfer(Rows(), i)), sha);
      if i >= |transfers| { return Err(TransferMissing); }
      var row := transfers[i];
      if row.status.TransferFailed? { return Err(TransferClosed); }
      if row.status.TransferCompleted? { return Balance(FloorRows(), row.owner); }
      if !row.status.ExternalApplied? { return Err(TransferNotApplied); }
      if row.direction.Deposit? {
        var _ :- CreditAccount(row.owner, row.cents, UmoneyDeposit, Some(i));
      }
      transfers := transfers[i := row.(status := TransferCompleted)];
      r := Balance(FloorRows(), row.owner);
    }

    method FailEconomyTransfer(i: Id) returns (r: Result<int>)
      requires Valid()
      modifies this
      ensures Rows() == Step(old(Rows()), cfg, sha, DoFailTransfer(i))
      ensures Valid() && Rows() == After(old(Rows()), FailTransfer(old(Rows()), i))
      ensures match FailTransfer(old(Rows()), i)
              case Ok(_) => i < |transfers| && r == Balance(FloorRows(), transfers[i].owner)
              case Err(e) => r == Err(e)
    {
      hide Good; hide Priced; hide Credit;
      FailTransferKeepsGood(Rows(), i, sha);
      GoodIsPriced(After(Rows(), FailTransfer(Rows(), i)), sha);
      if i >= |transfers| { return Err(TransferMissing); }
      var row := transfers[i];
      if row.status.ExternalApplied? || row.status.TransferCompleted? || row.status.TransferBlocked? {
        return Err(TransferApplied);
      }
      if row.status.TransferPrepared? {
        if row.direction.Withdraw? {
          var _ :- CreditAccount(row.owner, row.cents, UmoneyWithdrawRefund, Some(i));
        }
        transfers := transfers[i := row.(status := TransferFailed)];
      }
      r := Balance(FloorRows(), row.owner);
    }

    method BlockEconomyTransfer(i: Id) returns (r: Result<bool>)
      requires Valid()
      modifies this
      ensures Rows() == Step(old(Rows()), cfg, sha, DoBlockTransfer(i))
      ensures Valid() && Rows() == After(old(Rows()), BlockTransfer(old(Rows()), i))
      ensures r == Committed(BlockTransfer(old(Rows()), i))
    {
      hide Good; hide Priced;
      BlockTransferKeepsGood(Rows(), i, sha);
      GoodIsPriced(After(Rows(), BlockTransfer(Rows(), i)), sha);
      if i >= |transfers| || !transfers[i].status.TransferPrepared? { return Err(TransferMissing); }
      transfers := transfers[i := transfers[i].(status := TransferBlocked)];
      r := Ok(true);
    }

    // ----- frame listings -----

    method UpsertFrameListing(l: Listing, administrator: bool) returns (r: Result<Id>)
      requires Valid()
      modifies this
      ensures Rows() == Step(old(Rows()), cfg, sha, DoUpsert(l, administrator))
      ensures Valid()
      ensures if ListingIncomplete(l) then r == Err(IdentityIncomplete) && Rows() == old(Rows())
              else
                var t := Opening(old(Rows()), cfg, l.seller);
                Rows() == AfterPair(t, Upsert(t, l, administrator)) && r == CommittedWith(Upsert(t, l, administrator))
    {
      hide Good; hide Priced; hide EnsureAccount; hide Step;
      UpsertIsStep(Rows(), cfg, sha, l, administrator);
      if ListingIncomplete(l) { return Err(IdentityIncomplete); }
      var _ := OpenAccount(l.seller);
      UpsertKeepsGood(Rows(), l, administrator, sha);
      GoodIsPriced(AfterPair(Rows(), Upsert(Rows(), l, administrator)), sha);
      if l.target in frames && frames[l.target] < |listings| {
        var id := frames[l.target];
        var current := listings[id];
        if !current.status.ListingActive? { return Err(ListingSettling); }
        if !administrator && current.seller != l.seller { return Err(NotOwner); }
        listings := listings[id := current.(status := ListingCanceled)];
        frames := UnbindAll(frames, id);
      }
      r := Ok(|listings|);
      frames := frames[l.target := |listings|];
      listings := listings + [l.(status := ListingActive, buyer := None)];
    }

    method CancelFrameListing(id: Id, p: Player, administrator: bool) returns (r: Result<bool>)
      requires Valid()
      modifies this
      ensures Rows() == Step(old(Rows()), cfg, sha, DoCancelListing(id, p, administrator))
      ensures Valid() && Rows() == After(old(Rows()), CancelListing(old(Rows()), id, p, administrator))
      ensures r == Committed(CancelListing(old(Rows()), id, p, administrator))
    {
      hide Good; hide Priced;
      CancelListingKeepsGood(Rows(), id, p, administrator, sha);
      GoodIsPriced(After(Rows(), CancelListing(Rows(), id, p, administrator)), sha);
      if id >= |listings| { return Err(ListingMissing); }
      var l := listings[id];
      if l.status.ListingCanceled? { return Ok(true); }
      if !l.status.ListingActive? { return Err(ListingSettling); }
      if !administrator && l.seller != p { return Err(NotOwner); }
      listings := listings[id := l.(status := ListingCanceled)];
      frames := UnbindAll(frames, id);
      r := Ok(true);
    }

    method PurchaseFrameListing(id: Id, buyer: Player, expected: int) returns (r: Result<bool>)
      requires Valid()
      modifies this
      ensures Rows() == Step(old(Rows()), cfg, sha, DoPurchase(id, buyer, expected))
      ensures Valid()
      ensures if buyer == "" || expected <= 0 then r == Err(IdentityIncomplete) && Rows() == old(Rows())
              else
                var t := Opening(old(Rows()), cfg, buyer);
                Rows() == After(t, Purchase(t, id, buyer, expected)) && r == Committed(Purchase(t, id, buyer, expected))
    {
      hide Good; hide Priced; hide Credit; hide Debit; hide EnsureAccount; hide Step;
      PurchaseIsStep(Rows(), cfg, sha, id, buyer, expected);
      if buyer == "" || expected <= 0 { return Err(IdentityIncomplete); }
      var _ := OpenAccount(buyer);
      PurchaseKeepsGood(Rows(), id, buyer, expected, sha);
      GoodIsPriced(After(Rows(), Purchase(Rows(), id, buyer, expected)), sha);
      if id >= |listings| { return Err(ListingMissing); }
      var l := listings[id];
      if !l.status.ListingActive? { return Err(ListingUnavailable); }
      if l.price != expected { return Err(PriceChanged); }
      if l.seller == buyer { return Err(SelfPurchase); }
      if !(l.target in frames && frames[l.target] == id) { return Err(ListingUnbound); }
      if buyer !in accounts || l.seller !in accounts { return Err(AccountMissing); }
      var begin := Rows();
      var paid := DebitAccount(buyer, l.price, FramePurchase, Some(id));
      if paid.Err? {
        Rollback(begin);
        return paid;
      }
      var sold := CreditAccount(l.seller, l.price, FrameSale, Some(id));
      if sold.Err? {
        Rollback(begin);
        return sold;
      }
      listings := listings[id := l.(status := ListingPaid, buyer := Some(buyer))];
      r := Ok(true);
    }

    method MarkFrameListingDropped(id: Id) returns (r: Result<bool>)
      requires Valid()
      modifies this
      ensures Rows() == Step(old(Rows()), cfg, sha, DoMarkDropped(id))
      ensures Valid() && Rows() == After(old(Rows()), MarkDropped(old(Rows()), id))
      ensures r == Committed(MarkDropped(old(Rows()), id))
    {
      hide Good; hide Priced;
      MarkDroppedKeepsGood(Rows(), id, sha);
      GoodIsPriced(After(Rows(), MarkDropped(Rows(), id)), sha);
      if id >= |listings| { return Err(ListingMissing); }
      var l := listings[id];
      if l.status.ListingDropped? || l.status.ListingClaimed? { return Ok(true); }
      if !l.status.ListingPaid? { return Err(NotAwaitingPickup); }
      listings := listings[id := l.(status := ListingDropped)];
      r := Ok(true);
    }

    method CompleteFrameListingPickup(id: Id) returns (r: Result<bool>)
      requires Valid()
      modifies this
      ensures Rows() == Step(old(Rows()), cfg, sha, DoCompletePickup(id))
      ensures Valid() && Rows() == After(old(Rows()), CompletePickup(old(Rows()), id))
      ensures r == Committed(CompletePickup(old(Rows()), id))
    {
      hide Good; hide Priced;
      CompletePickupKeepsGood(Rows(), id, sha);
      GoodIsPriced(After(Rows(), CompletePickup(Rows(), id)), sha);
      if id >= |listings| { return Err(ListingMissing); }
      var l := listings[id];
      if l.status.ListingClaimed? { return Ok(true); }
      if !l.status.ListingPaid? && !l.status.ListingDropped? { return Err(NotAwaitingPickup); }
      listings := listings[id := l.(status := ListingClaimed)];
      frames := UnbindAll(frames, id);
      r := Ok(true);
    }
  }

  // ----- calls are steps -----

  lemma PlaceIsStep(t: Tables, cfg: Config, sha: string -> int, req: Request)
    requires Priced(t)
    ensures Validate(cfg, req).None? ==> Priced(Opening(t, cfg, req.player))
    ensures Step(t, cfg, sha, DoPlace(req))
         == if Validate(cfg, req).Some? then t
            else AfterPair(Opening(t, cfg, req.player), Place(Opening(t, cfg, req.player), req))
  {
    hide EnsureAccount; hide Place;
  }

  lemma AddBalanceIsStep(t: Tables, cfg: Config, sha: string -> int, p: Player, delta: int)
    requires Priced(t)
    ensures Step(t, cfg, sha, DoAddBalance(p, delta))
         == if p == "" then t else After(Opening(t, cfg, p), AdjustBalance(Opening(t, cfg, p), p, delta))
  {
    hide AdjustBalance; hide Priced;
  }

  lemma ActivateIsStep(t: Tables, cfg: Config, sha: string -> int, target: string, kind: TargetKind, item: Item)
    requires Priced(t)
    ensures Step(t, cfg, sha, DoActivate(target, kind, item)) == AfterPair(t, Activate(t, sha, target, kind, item))
  {
    hide Activate; hide Priced;
  }

  lemma ExecuteIsStep(t: Tables, cfg: Config, sha: string -> int, e: Id)
    requires Priced(t)
    ensures Step(t, cfg, sha, DoExecuteEscrow(e)) == AfterPair(t, ExecuteEscrow(t, e))
  {
    hide ExecuteEscrow;
  }

  lemma TransferIsStep(t: Tables, cfg: Config, sha: string -> int, p: Player, name: string, direction: Direction,
                       cents: int, units: int, before: Option<int>)
    requires Priced(t)
    ensures Step(t, cfg, sha, DoPrepareTransfer(p, name, direction, cents, units, before))
         == if TransferRefused(p, name, cents, units).Some? then t
            else AfterPair(Opening(t, cfg, p),
                           PrepareTransfer(Opening(t, cfg, p), p, name, direction, cents, units, before))
  {
    hide PrepareTransfer; hide EnsureAccount; hide Priced;
  }

  lemma UpsertIsStep(t: Tables, cfg: Config, sha: string -> int, l: Listing, administrator: bool)
    requires Priced(t)
    ensures Step(t, cfg, sha, DoUpsert(l, administrator))
         == if ListingIncomplete(l) then t
            else AfterPair(Opening(t, cfg, l.seller), Upsert(Opening(t, cfg, l.seller), l, administrator))
  {
    hide Upsert; hide EnsureAccount; hide Priced;
  }

  lemma PurchaseIsStep(t: Tables, cfg: Config, sha: string -> int, id: Id, buyer: Player, expected: int)
    requires Priced(t)
    ensures Step(t, cfg, sha, DoPurchase(id, buyer, expected))
         == if buyer == "" || expected <= 0 then t
            else After(Opening(t, cfg, buyer), Purchase(Opening(t, cfg, buyer), id, buyer, expected))
  {
    hide Purchase; hide EnsureAccount; hide Priced;
  }

  lemma ReleaseAllUnfolds(f: Floor, ids: seq<Id>, i: nat)
    requires i < |ids| && forall k :: 0 <= k < |ids[i..]| ==> ids[i..][k] < |f.orders|
    ensures ids[i] < |f.orders|
    ensures match Release(f, ids[i], MarketCloseRefund, MarketClosed)
            case Err(e) => ReleaseAll(f, ids[i..]) == Err(e)
            case Ok(g) => var rest := ids[i + 1..];
                          (forall k :: 0 <= k < |rest| ==> rest[k] < |g.orders|)
                          && ReleaseAll(f, ids[i..]) == ReleaseAll(g, rest)
  {
    hide Release;
    assert ids[i..][0] == ids[i] && ids[i..][1..] == ids[i + 1..];
  }

  lemma ReleaseAllEnds(f: Floor)
    ensures ReleaseAll(f, []) == Ok(f)
  {
  }

  lemma ValidatedHasPlayer(cfg: Config, req: Request)
    requires Validate(cfg, req).None?
    ensures req.player != ""
  {
  }

  /** The rows a query selects are distinct, priced, other players' and not the incoming order itself. */
  lemma AsksAreFresh(f: Floor, g: Floor, markets: seq<Venue>, req: Request, book: Id)
    requires PricedRows(f) && (req.kind.Limit? ==> req.price > 0)
    requires |g.orders| == |f.orders| + 1 && g.orders[..|f.orders|] == f.orders
             && g.orders[|f.orders|].owner == req.player
    ensures var ids := Candidates(g.orders, markets, MakerQuery(req, book));
            && ValidMakers(g, ids)
            && (forall k :: 0 <= k < |ids| ==> ids[k] < |g.orders| && g.orders[ids[k]].owner != req.player
                                               && g.orders[ids[k]].price > 0)
            && forall j, k :: 0 <= j < k < |ids| ==> ids[j] != ids[k]
  {
    var q := MakerQuery(req, book);
    SelectIsPriceTime(g.orders, markets, q, |g.orders|);
    var ids := Candidates(g.orders, markets, q);
    forall k | 0 <= k < |ids|
      ensures ids[k] < |g.orders| && g.orders[ids[k]].owner != req.player && g.orders[ids[k]].price > 0
    {
      assert Eligible(g.orders[ids[k]], markets, q);
      assert g.orders[ids[k]] == f.orders[ids[k]];
    }
  }

  lemma SellLoopUnfolds(f: Floor, req: Request, taker: Id, bids: seq<Id>, i: nat, c: Cursor)
    requires i < |bids| && ValidMakers(f, bids[i..]) && c.remaining != 0
    ensures bids[i] < |f.orders|
    ensures var bid := f.orders[bids[i]];
            var fill := Min(c.remaining, bid.remaining);
            match SellFill(f, req, taker, bids[i], fill)
            case Err(e) => SellLoop(f, req, taker, bids[i..], c) == Err(e)
            case Ok(g) =>
              && ValidMakers(g, bids[i + 1..])
              && SellLoop(f, req, taker, bids[i..], c)
                 == SellLoop(g, req, taker, bids[i + 1..],
                             Cursor(c.remaining - fill, c.filled + fill, c.gross + bid.price * fill))
  {
    hide SellFill;
    assert bids[i..][0] == bids[i] && bids[i..][1..] == bids[i + 1..];
  }

  lemma SellLoopEnds(f: Floor, req: Request, taker: Id, bids: seq<Id>, c: Cursor)
    requires ValidMakers(f, bids) && (bids == [] || c.remaining == 0)
    ensures SellLoop(f, req, taker, bids, c) == Ok((f, c))
  {
  }

  lemma PaymentKeepsRows(f: Floor, req: Request, taker: Id, ask: Order, fill: int)
    ensures match BuyPay(f, req, taker, ask, fill)
            case Ok(g) => g.orders == f.orders && g.accounts.Keys == f.accounts.Keys
            case Err(_) => true
  {
  }

  lemma SettlementKeepsOthers(f: Floor, req: Request, taker: Id, id: Id, fill: int)
    requires id < |f.orders|
    ensures match BuySettle(f, req, taker, id, fill)
            case Ok(g) =>
              && |g.orders| == |f.orders| && (forall k :: 0 <= k < |f.orders| && k != id ==> g.orders[k] == f.orders[k])
              && g.accounts.Keys == f.accounts.Keys
              && forall p :: p in f.accounts && p != f.orders[id].owner ==> g.accounts[p] == f.accounts[p]
            case Err(_) => true
  {
  }

  lemma BuyLoopUnfolds(f: Floor, req: Request, taker: Id, asks: seq<Id>, i: nat, c: Cursor)
    requires i < |asks| && ValidMakers(f, asks[i..]) && req.player in f.accounts && c.remaining != 0
    ensures asks[i] < |f.orders| && f.orders[asks[i]].price > 0
    ensures var ask := f.orders[asks[i]];
            var fill := BuyQuantity(f, req, ask, c.remaining);
            if req.kind.Market? && fill <= 0 then BuyLoop(f, req, taker, asks[i..], c) == Ok((f, c))
            else match BuyFill(f, req, taker, asks[i], fill)
                 case Err(e) => BuyLoop(f, req, taker, asks[i..], c) == Err(e)
                 case Ok(g) =>
                   && ValidMakers(g, asks[i + 1..])
                   && BuyLoop(f, req, taker, asks[i..], c)
                      == BuyLoop(g, req, taker, asks[i + 1..],
                                 Cursor(c.remaining - fill, c.filled + fill, c.gross + ask.price * fill))
  {
    hide BuyFill;
    assert asks[i..][0] == asks[i] && asks[i..][1..] == asks[i + 1..];
  }

  lemma BuyLoopEnds(f: Floor, req: Request, taker: Id, asks: seq<Id>, c: Cursor)
    requires ValidMakers(f, asks) && req.player in f.accounts && (asks == [] || c.remaining == 0)
    ensures BuyLoop(f, req, taker, asks, c) == Ok((f, c))
  {
  }
}
