/**
 What a buy pays each seller, known before it is placed. A buy that its buyer can pay for is refused
 exactly when the balance of one of the sellers cannot hold what that seller would earn.
 */
module Earnings {
  import opened Sums
  import opened Domain
  import opened Matching
  import opened Settlement
  import opened MatchingLoops
  import opened Placement
  import opened Priority

  /** Asks that exist and have a price. */
  predicate PricedAsks(orders: seq<Order>, asks: seq<Id>)
  {
    forall k :: 0 <= k < |asks| ==> asks[k] < |orders| && orders[asks[k]].price > 0
  }

  /** Units taken from one ask, as far as quantity and money go. */
  function Taken(ask: Order, remaining: int, money: Option<int>): int
    requires ask.price > 0
  {
    var units := Min(remaining, ask.remaining);
    if money.Some? then Min(units, money.value / ask.price) else units
  }

  /** What one player earns when the listed asks are bought in turn, until units or money run out. */
  function Earned(orders: seq<Order>, asks: seq<Id>, p: Player, remaining: int, money: Option<int>): int
    requires PricedAsks(orders, asks)
    decreases |asks|
  {
    if asks == [] || remaining == 0 || Taken(orders[asks[0]], remaining, money) <= 0 then 0
    else
      var ask := orders[asks[0]];
      var n := Taken(ask, remaining, money);
      var left := if money.Some? then Some(money.value - ask.price * n) else None;
      (if ask.owner == p then ask.price * n else 0) + Earned(orders, asks[1..], p, remaining - n, left)
  }

  /** The money a market buy may spend; a limit buy has set its own aside. */
  function Spendable(f: Floor, req: Request): Option<int>
    requires req.player in f.accounts
  {
    if req.kind.Market? then Some(f.accounts[req.player]) else None
  }

  /** Some seller's balance cannot hold what the seller would earn. */
  ghost predicate Overpaid(f: Floor, req: Request, asks: seq<Id>, remaining: int)
    requires PricedAsks(f.orders, asks) && req.player in f.accounts
  {
    exists p :: p in f.accounts && p != req.player
                && f.accounts[p] + Earned(f.orders, asks, p, remaining, Spendable(f, req)) > INT64_MAX
  }

  /** Every other player's balance grew by just what the player earned. */
  ghost predicate AllPaid(f: Floor, g: Floor, req: Request, asks: seq<Id>, remaining: int)
    requires PricedAsks(f.orders, asks) && req.player in f.accounts
  {
    forall p :: p in f.accounts && p != req.player ==>
      p in g.accounts
      && g.accounts[p] == f.accounts[p] + Earned(f.orders, asks, p, remaining, Spendable(f, req))
  }

  lemma {:induction false} EarnedIsNatural(orders: seq<Order>, asks: seq<Id>, p: Player, remaining: int,
                                           money: Option<int>)
    requires PricedAsks(orders, asks)
    ensures 0 <= Earned(orders, asks, p, remaining, money)
    decreases |asks|
  {
    if !(asks == [] || remaining == 0 || Taken(orders[asks[0]], remaining, money) <= 0) {
      var ask := orders[asks[0]];
      var n := Taken(ask, remaining, money);
      var left := if money.Some? then Some(money.value - ask.price * n) else None;
      SmallerProduct(ask.price, 0, n);
      EarnedIsNatural(orders, asks[1..], p, remaining - n, left);
    }
  }

  lemma {:induction false} EarnedSame(orders: seq<Order>, now: seq<Order>, asks: seq<Id>, p: Player, remaining: int,
                                      money: Option<int>)
    requires PricedAsks(orders, asks)
    requires forall k :: 0 <= k < |asks| ==> asks[k] < |now| && now[asks[k]] == orders[asks[k]]
    ensures PricedAsks(now, asks) && Earned(now, asks, p, remaining, money) == Earned(orders, asks, p, remaining, money)
    decreases |asks|
  {
    if !(asks == [] || remaining == 0 || Taken(orders[asks[0]], remaining, money) <= 0) {
      var ask := orders[asks[0]];
      var n := Taken(ask, remaining, money);
      var left := if money.Some? then Some(money.value - ask.price * n) else None;
      EarnedSame(orders, now, asks[1..], p, remaining - n, left);
    }
  }

  // ----- one fill -----

  lemma CreditRefused(f: Floor, p: Player, amount: int, reason: LedgerReason, reference: Option<Id>)
    requires p in f.accounts && 0 <= amount
    ensures Credit(f, p, amount, reason, reference).Err? ==> f.accounts[p] + amount > INT64_MAX
  {
  }

  lemma PaymentFits(f: Floor, req: Request, taker: Id, ask: Order, fill: int)
    requires BankOk(f) && req.player in f.accounts && 0 < fill && 0 < ask.price
    requires req.kind.Limit? ==> 0 <= req.price - ask.price && 0 <= BuyerGain(req, ask.price, fill) <= INT64_MAX
    requires req.kind.Market? ==> ask.price * fill <= f.accounts[req.player]
    requires f.accounts[req.player] + BuyerGain(req, ask.price, fill) <= INT64_MAX
    ensures BuyPay(f, req, taker, ask, fill).Ok?
  {
    hide Sum; hide Total;
    if req.kind.Market? {
      SmallerProduct(ask.price, 0, fill);
      assert f.accounts[req.player] <= INT64_MAX;
      DebitMoves(f, req.player, ask.price * fill, MarketBuyTrade, Some(taker));
    } else {
      CreditRefused(f, req.player, BuyerGain(req, ask.price, fill), PriceImprovementRefund, Some(taker));
    }
  }

  lemma SettlementRefused(f: Floor, req: Request, taker: Id, id: Id, fill: int)
    requires id < |f.orders| && 0 < fill && f.orders[id].owner in f.accounts && 0 < f.orders[id].price
    requires f.orders[id].price * fill <= INT64_MAX
    ensures BuySettle(f, req, taker, id, fill).Err? ==>
              f.accounts[f.orders[id].owner] + f.orders[id].price * fill > INT64_MAX
  {
    var ask := f.orders[id];
    SmallerProduct(ask.price, 0, fill);
  }

  /** A fill that the buyer can pay for fails only because its seller's balance would overflow. */
  lemma FillRefused(f: Floor, markets: seq<Venue>, req: Request, taker: Id, id: Id, fill: int)
    requires Sound(f, markets, taker) && TakerRow(f, req, taker) && req.side.Buy? && Meets(f, markets, taker, id)
    requires 0 < fill <= f.orders[id].remaining && fill <= req.quantity
    requires req.kind.Market? ==> f.orders[id].price * fill <= f.accounts[req.player]
    requires f.accounts[req.player] + Prepaid(req) * fill <= INT64_MAX
    ensures f.orders[id].owner in f.accounts && f.orders[id].owner != req.player
    ensures BuyFill(f, req, taker, id, fill).Err? ==>
              f.accounts[f.orders[id].owner] + f.orders[id].price * fill > INT64_MAX
  {
    SoundHasBank(f, markets, taker);
    hide Sum; hide Total;
    var ask := f.orders[id];
    assert RowOk(ask) && ask.owner in f.accounts;
    hide Sound; hide BankOk;
    SmallerProduct(ask.price, fill, ask.original);
    BuyerGainFits(req, ask.price, fill);
    SmallerProduct(ask.price, 0, fill);
    PaymentFits(f, req, taker, ask, fill);
    BuyPayMoves(f, req, taker, ask, fill);
    SettlementRefused(BuyPay(f, req, taker, ask, fill).value, req, taker, id, fill);
  }

  // ----- the loop -----

  /** What one step hands over to the rest of the loop. */
  lemma StepPays(f: Floor, g: Floor, markets: seq<Venue>, req: Request, taker: Id, asks: seq<Id>, remaining: int,
                 fill: int)
    requires asks != [] && PricedAsks(f.orders, asks) && req.player in f.accounts && Makers(f, markets, taker, asks)
    requires FillShape(f, g, taker, asks[0], fill) && req.player in g.accounts && remaining != 0
    requires fill == Taken(f.orders[asks[0]], remaining, Spendable(f, req)) && 0 < fill
    requires req.kind.Market? ==> g.accounts[req.player] == f.accounts[req.player] - f.orders[asks[0]].price * fill
    ensures PricedAsks(g.orders, asks[1..])
    ensures forall p ::
              Earned(f.orders, asks, p, remaining, Spendable(f, req))
              == (if f.orders[asks[0]].owner == p then f.orders[asks[0]].price * fill else 0)
                 + Earned(g.orders, asks[1..], p, remaining - fill, Spendable(g, req))
  {
    var rest := asks[1..];
    forall k | 0 <= k < |rest|
      ensures rest[k] < |g.orders| && g.orders[rest[k]] == f.orders[rest[k]]
    {
      assert rest[k] == asks[k + 1] && asks[k + 1] != asks[0];
    }
    hide FillShape; hide Makers;
    forall p
      ensures Earned(f.orders, asks, p, remaining, Spendable(f, req))
              == (if f.orders[asks[0]].owner == p then f.orders[asks[0]].price * fill else 0)
                 + Earned(f.orders, rest, p, remaining - fill, Spendable(g, req))
    {
    }
    EarnedSame(f.orders, g.orders, rest, "", 0, None);
    var left, money := remaining - fill, Spendable(g, req);
    hide Spendable;
    forall p
      ensures Earned(g.orders, rest, p, left, money) == Earned(f.orders, rest, p, left, money)
    {
      EarnedSame(f.orders, g.orders, rest, p, left, money);
    }
  }

  lemma NothingEarned(f: Floor, req: Request, asks: seq<Id>, remaining: int)
    requires PricedAsks(f.orders, asks) && req.player in f.accounts
    requires asks == [] || remaining == 0 || Taken(f.orders[asks[0]], remaining, Spendable(f, req)) <= 0
    ensures AllPaid(f, f, req, asks, remaining)
  {
  }

  /** From the rest of the loop back to the whole. */
  lemma RestPays(f: Floor, g: Floor, h: Result<Floor>, req: Request, asks: seq<Id>, remaining: int, fill: int,
                 owner: Player, cost: int)
    requires asks != [] && PricedAsks(f.orders, asks) && PricedAsks(g.orders, asks[1..])
    requires req.player in f.accounts && req.player in g.accounts && g.accounts.Keys == f.accounts.Keys
    requires forall p :: p in f.accounts && p != req.player ==>
               g.accounts[p] == f.accounts[p] + (if p == owner then cost else 0)
    requires forall p ::
               Earned(f.orders, asks, p, remaining, Spendable(f, req))
               == (if owner == p then cost else 0)
                  + Earned(g.orders, asks[1..], p, remaining - fill, Spendable(g, req))
    requires if h.Ok? then AllPaid(g, h.value, req, asks[1..], remaining - fill)
             else Overpaid(g, req, asks[1..], remaining - fill)
    ensures if h.Ok? then AllPaid(f, h.value, req, asks, remaining) else Overpaid(f, req, asks, remaining)
  {
    hide Earned; hide Spendable; hide PricedAsks;
    if h.Err? {
      var p :| p in g.accounts && p != req.player
               && g.accounts[p] + Earned(g.orders, asks[1..], p, remaining - fill, Spendable(g, req)) > INT64_MAX;
      assert f.accounts[p] + Earned(f.orders, asks, p, remaining, Spendable(f, req)) > INT64_MAX;
    }
  }

  lemma FirstOverpaid(f: Floor, req: Request, asks: seq<Id>, remaining: int)
    requires PricedAsks(f.orders, asks) && req.player in f.accounts && asks != [] && remaining != 0
    requires var ask := f.orders[asks[0]];
             var n := Taken(ask, remaining, Spendable(f, req));
             && 0 < n && ask.owner in f.accounts && ask.owner != req.player
             && f.accounts[ask.owner] + ask.price * n > INT64_MAX
    ensures Overpaid(f, req, asks, remaining)
  {
    hide Taken;
    var ask, money := f.orders[asks[0]], Spendable(f, req);
    var n := Taken(ask, remaining, money);
    EarnedIsNatural(f.orders, asks[1..], ask.owner, remaining - n,
                    if money.Some? then Some(money.value - ask.price * n) else None);
    assert f.accounts[ask.owner] + Earned(f.orders, asks, ask.owner, remaining, money) > INT64_MAX;
  }

  lemma LeftToSpend(req: Request, price: int, fill: int, remaining: int, balance: int)
    requires 0 <= fill <= remaining && 0 < price && (req.kind.Limit? ==> 0 < req.price)
    requires balance + Prepaid(req) * remaining <= INT64_MAX
    ensures balance + Prepaid(req) * fill <= INT64_MAX
    ensures balance + Prepaid(req) * fill - price * fill + Prepaid(req) * (remaining - fill) <= INT64_MAX
  {
    assert Prepaid(req) * remaining == Prepaid(req) * fill + Prepaid(req) * (remaining - fill);
    SmallerProduct(price, 0, fill);
    if req.side.Buy? && req.kind.Limit? { SmallerProduct(req.price, fill, remaining); }
  }

  /** The buy loop pays every seller what that seller earns, or is refused because one balance cannot hold it. */
  lemma {:induction false} LoopPays(f: Floor, markets: seq<Venue>, req: Request, taker: Id, asks: seq<Id>, c: Cursor)
    requires Running(f, markets, req, taker, asks, c) && req.side.Buy? && ValidMakers(f, asks)
    requires PricedAsks(f.orders, asks)
    requires 0 <= c.remaining && req.player in f.accounts
    requires f.accounts[req.player] + Prepaid(req) * c.remaining <= INT64_MAX
    ensures match BuyLoop(f, req, taker, asks, c)
            case Err(_) => Overpaid(f, req, asks, c.remaining)
            case Ok((g, _)) => AllPaid(f, g, req, asks, c.remaining)
    decreases |asks|
  {
    hide Running; hide Progress; hide FillShape; hide Sound; hide BuyFill; hide Overpaid; hide AllPaid; hide Earned;
    hide BankOk; hide Makers; hide Sum; hide Total; hide RowOk; hide Meets; hide Traded; hide PricedAsks;
    if asks == [] || c.remaining == 0 {
      NothingEarned(f, req, asks, c.remaining);
    } else {
      NextMaker(f, markets, req, taker, asks, c);
      BuyStep(f, markets, req, taker, asks, c);
      var ask := f.orders[asks[0]];
      var fill := BuyQuantity(f, req, ask, c.remaining);
      assert fill == Taken(ask, c.remaining, Spendable(f, req));
      if fill <= 0 {
        NothingEarned(f, req, asks, c.remaining);
      } else {
        QuotientBound(f.accounts[req.player], ask.price, fill);
        LeftToSpend(req, ask.price, fill, c.remaining, f.accounts[req.player]);
        FillRefused(f, markets, req, taker, asks[0], fill);
        BuyFillMoves(f, markets, req, taker, asks[0], fill);
        var r := BuyFill(f, req, taker, asks[0], fill);
        if r.Err? {
          FirstOverpaid(f, req, asks, c.remaining);
        } else {
          var g, d := r.value, Advance(c, ask.price, fill);
          MakersAreValid(g, markets, req, taker, asks[1..], d);
          SameKeys(f, g, taker, asks[0], fill);
          LoopMakers(f, markets, req, taker, asks, c);
          StepPays(f, g, markets, req, taker, asks, c.remaining, fill);
          LoopPays(g, markets, req, taker, asks[1..], d);
          var s := BuyLoop(g, req, taker, asks[1..], d);
          RestPays(f, g, if s.Ok? then Ok(s.value.0) else Err(s.error), req, asks, c.remaining, fill, ask.owner,
                   ask.price * fill);
        }
      }
    }
  }

  lemma SameKeys(f: Floor, g: Floor, taker: Id, maker: Id, q: int)
    requires FillShape(f, g, taker, maker, q)
    ensures g.accounts.Keys == f.accounts.Keys
  {
  }

  lemma LoopMakers(f: Floor, markets: seq<Venue>, req: Request, taker: Id, ids: seq<Id>, c: Cursor)
    requires Running(f, markets, req, taker, ids, c)
    ensures Makers(f, markets, taker, ids)
  {
    hide Sound;
  }

  // ----- whole buys -----

  lemma QueueIsPriced(f: Floor, markets: seq<Venue>, req: Request)
    requires PricedRows(f) && req.market < |markets|
    ensures PricedAsks(f.orders, Candidates(f.orders, markets, MakerQuery(req, markets[req.market].book)))
  {
    hide Candidates;
  }

  lemma InsertionKeepsEarnings(f: Floor, g: Floor, asks: seq<Id>, o: Order)
    requires g.orders == f.orders + [o] && PricedAsks(f.orders, asks)
    ensures PricedAsks(g.orders, asks)
    ensures forall p, remaining, money ::
              Earned(g.orders, asks, p, remaining, money) == Earned(f.orders, asks, p, remaining, money)
  {
    hide Earned;
    EarnedSame(f.orders, g.orders, asks, "", 0, None);
    forall p, remaining, money
      ensures Earned(g.orders, asks, p, remaining, money) == Earned(f.orders, asks, p, remaining, money)
    {
      EarnedSame(f.orders, g.orders, asks, p, remaining, money);
    }
  }

  /** Setting the reserve aside concerns the buyer alone. */
  lemma OpenedEarnings(f: Floor, g: Floor, k: Floor, req: Request, asks: seq<Id>, o: Order)
    requires g.orders == f.orders + [o] && PricedAsks(f.orders, asks) && PricedAsks(g.orders, asks)
    requires req.player in f.accounts && req.player in g.accounts
    requires g.accounts == f.accounts[req.player := g.accounts[req.player]]
    requires req.kind.Market? ==> g.accounts[req.player] == f.accounts[req.player]
    ensures Overpaid(g, req, asks, req.quantity) ==> Overpaid(f, req, asks, req.quantity)
    ensures AllPaid(g, k, req, asks, req.quantity) ==> AllPaid(f, k, req, asks, req.quantity)
  {
    InsertionKeepsEarnings(f, g, asks, o);
    hide Earned; hide PricedAsks;
    if Overpaid(g, req, asks, req.quantity) {
      var p :| p in g.accounts && p != req.player
               && g.accounts[p] + Earned(g.orders, asks, p, req.quantity, Spendable(g, req)) > INT64_MAX;
      assert f.accounts[p] + Earned(f.orders, asks, p, req.quantity, Spendable(f, req)) > INT64_MAX;
    }
  }

  lemma PaidFits(f: Floor, k: Floor, markets: seq<Venue>, req: Request, asks: seq<Id>, remaining: int)
    requires PricedAsks(f.orders, asks) && req.player in f.accounts
    requires AllPaid(f, k, req, asks, remaining) && Sound(k, markets, -1)
    ensures !Overpaid(f, req, asks, remaining)
  {
    hide Sum; hide Total; hide Earned; hide PricedAsks;
  }

  /**
   On an active market, a buy that its buyer can pay for is refused exactly when some seller's
   balance cannot hold what the seller would earn; a committed one pays every seller just that.
   */
  lemma BuyPaysSellers(f: Floor, markets: seq<Venue>, req: Request)
    requires Sound(f, markets, -1) && ValidOrder(req) && req.side.Buy? && PricedRows(f)
    requires req.market < |markets| && markets[req.market].active && req.player in f.accounts
    requires req.kind.Limit? ==> req.price * req.quantity <= f.accounts[req.player]
    ensures var asks := Candidates(f.orders, markets, MakerQuery(req, markets[req.market].book));
            PricedAsks(f.orders, asks)
            && match PlaceBuy(f, markets, req)
               case Err(e) => e == BalanceOverflow && Overpaid(f, req, asks, req.quantity)
               case Ok((k, _)) => AllPaid(f, k, req, asks, req.quantity) && !Overpaid(f, req, asks, req.quantity)
  {
    hide Sum; hide Total; hide Candidates; hide Sound; hide BankOk; hide PricedRows; hide SameHoldings; hide Makers;
    hide Running; hide ValidMakers; hide TakerRow; hide NewOrder; hide BuyLoop; hide OpenBuy; hide Executed;
    hide Overpaid; hide AllPaid; hide PricedAsks; hide CloseTaker; hide CloseBuy;
    PlaceBuyExecutes(f, markets, req);
    SoundHasBank(f, markets, -1);
    OpenBuyPays(f, req);
    QueueIsPriced(f, markets, req);
    var q := MakerQuery(req, markets[req.market].book);
    var g, c := OpenBuy(f, req).value, Cursor(req.quantity, 0, 0);
    var asks := Candidates(f.orders, markets, q);
    var o := NewOrder(req, Prepaid(req) * req.quantity);
    OpenBuyReady(f, g, markets, req);
    BalanceInRange(f, req.player);
    NewOrderIsTheirs(req);
    SameQueueAfterInsertion(f, g, markets, req, o);
    OpenedRuns(f, g, markets, req, |f.orders|);
    InsertionKeepsEarnings(f, g, asks, o);
    LoopPays(g, markets, req, |f.orders|, asks, c);
    BuyLoopMatches(g, markets, req, |f.orders|, asks, c);
    var r := BuyLoop(g, req, |f.orders|, asks, c);
    if r.Ok? {
      var (h, d) := r.value;
      BuyFinishes(f, g, h, d, markets, req);
      CloseBuyFits(h, req, |f.orders|, d);
      ClosedAccounts(h, req, |f.orders|, d);
      var k := PlaceBuy(f, markets, req).value.0;
      OpenedEarnings(f, g, k, req, asks, o);
      SameAccountsPaid(g, h, k, req, asks, req.quantity);
      ExecutedIsSound(f, k, markets, req, PlaceBuy(f, markets, req).value.1);
      PaidFits(f, k, markets, req, asks, req.quantity);
    } else {
      OpenedEarnings(f, g, g, req, asks, o);
    }
  }

  lemma BalanceInRange(f: Floor, p: Player)
    requires BankOk(f) && p in f.accounts
    ensures 0 <= f.accounts[p] <= INT64_MAX
  {
  }

  lemma NewOrderIsTheirs(req: Request)
    ensures NewOrder(req, Prepaid(req) * req.quantity).owner == req.player
  {
  }

  lemma ClosedAccounts(h: Floor, req: Request, taker: Id, d: Cursor)
    requires taker < |h.orders|
    ensures CloseTaker(h, req, taker, d, Prepaid(req) * d.remaining).accounts == h.accounts
  {
  }

  lemma SameAccountsPaid(g: Floor, h: Floor, k: Floor, req: Request, asks: seq<Id>, remaining: int)
    requires PricedAsks(g.orders, asks) && req.player in g.accounts && k.accounts == h.accounts
    requires AllPaid(g, h, req, asks, remaining)
    ensures AllPaid(g, k, req, asks, remaining)
  {
  }

  lemma ExecutedIsSound(f: Floor, k: Floor, markets: seq<Venue>, req: Request, x: Execution)
    requires Executed(f, k, markets, req, x)
    ensures Sound(k, markets, -1)
  {
    hide Sound;
  }
}
