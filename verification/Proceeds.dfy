/**
 What a sell is paid, known before it is placed: the bids it meets, best first, up to its
 quantity. A sell at an active market is refused exactly when the seller's balance cannot
 hold that.
 */
module Proceeds {
  import opened Sums
  import opened Domain
  import opened Matching
  import opened Settlement
  import opened MatchingLoops
  import opened Placement
  import opened Priority
  import opened Greedy

  /** What the bids waiting for a sell pay for its units, before it is placed. */
  function SellValue(f: Floor, markets: seq<Venue>, req: Request): int
    requires req.market < |markets|
  {
    CheapestCost(OffersFor(f, markets, req), req.quantity)
  }

  predicate Positive(offers: seq<Offer>)
  {
    forall k :: 0 <= k < |offers| ==> 0 < offers[k].price && 0 < offers[k].units
  }

  lemma {:induction false} CostIsNatural(offers: seq<Offer>, n: int)
    requires Positive(offers)
    ensures 0 <= CheapestCost(offers, n)
    decreases |offers|
  {
    if offers != [] && n > 0 {
      var fill := Min(n, offers[0].units);
      CostIsNatural(offers[1..], n - fill);
      SmallerProduct(offers[0].price, 0, fill);
    }
  }

  /** The first bid pays for what it takes, the others for the rest. */
  lemma CostOfFirst(offers: seq<Offer>, n: int)
    requires offers != [] && 0 < n
    ensures var fill := Min(n, offers[0].units);
            CheapestCost(offers, n) == offers[0].price * fill + CheapestCost(offers[1..], n - fill)
  {
  }

  lemma BidsArePositive(f: Floor, markets: seq<Venue>, taker: Id, bids: seq<Id>)
    requires Sound(f, markets, taker) && Makers(f, markets, taker, bids)
    requires forall k :: 0 <= k < |bids| ==> bids[k] < |f.orders|
    ensures Positive(OffersOf(f.orders, bids))
  {
    hide Sum; hide Total;
    forall k | 0 <= k < |bids|
      ensures 0 < f.orders[bids[k]].price && 0 < f.orders[bids[k]].remaining
    {
      assert Meets(f, markets, taker, bids[k]) && RowOk(f.orders[bids[k]]);
    }
  }

  // ----- one fill -----

  lemma CreditRefused(f: Floor, p: Player, amount: int, reason: LedgerReason, reference: Option<Id>)
    requires p in f.accounts && 0 < amount
    ensures Credit(f, p, amount, reason, reference).Err? <==> f.accounts[p] + amount > INT64_MAX
  {
  }

  /** A fill is refused exactly when the seller's balance cannot hold its price. */
  lemma FillRefused(f: Floor, req: Request, taker: Id, id: Id, fill: int)
    requires BankOk(f) && TakerRow(f, req, taker) && req.side.Sell? && req.player in f.accounts
    requires id < |f.orders| && RowOk(f.orders[id]) && Resting(f.orders[id]) && f.orders[id].side.Buy?
    requires 0 < fill <= f.orders[id].remaining
    ensures var cost := f.orders[id].price * fill;
            && 0 < cost
            && match SellFill(f, req, taker, id, fill)
               case Err(_) => f.accounts[req.player] + cost > INT64_MAX
               case Ok(g) =>
                 req.player in g.accounts && g.accounts[req.player] == f.accounts[req.player] + cost <= INT64_MAX
  {
    hide Sum; hide Total; hide BankOk; hide RowOk; hide TakerRow;
    var bid := f.orders[id];
    BidCoversFill(bid, fill);
    SmallerProduct(bid.price, 1, fill);
    SellFillMoves(f, req, taker, id, fill);
    CreditRefused(f.(orders := f.orders[id := AfterFill(bid, fill)]), req.player, bid.price * fill, TradeProceeds,
                  Some(taker));
  }

  // ----- the loop -----

  /** The loop is refused exactly when the seller's balance cannot hold what the queue pays; else it gains just that. */
  lemma {:induction false} LoopRefused(f: Floor, markets: seq<Venue>, req: Request, taker: Id, bids: seq<Id>, c: Cursor)
    requires Queued(f, markets, req, taker, bids, c) && req.side.Sell?
    requires ValidMakers(f, bids) && req.player in f.accounts && f.accounts[req.player] <= INT64_MAX
    requires forall k :: 0 <= k < |bids| ==> bids[k] < |f.orders|
    ensures var value := CheapestCost(OffersOf(f.orders, bids), c.remaining);
            match SellLoop(f, req, taker, bids, c)
            case Err(_) => f.accounts[req.player] + value > INT64_MAX
            case Ok((g, d)) =>
              && req.player in g.accounts && g.accounts[req.player] == f.accounts[req.player] + value <= INT64_MAX
              && d.gross == c.gross + value
    decreases |bids|
  {
    hide Queued; hide SellFill; hide Makers; hide FillShape; hide Sum; hide Total; hide OffersOf; hide CheapestCost;
    hide BankOk; hide RowOk; hide TakerRow; hide Sound;
    QueuedFacts(f, markets, req, taker, bids, c);
    var offers := OffersOf(f.orders, bids);
    if bids == [] || c.remaining == 0 {
      NothingPaid(offers, c.remaining);
    } else {
      QueuedParts(f, markets, req, taker, bids, c);
      SellServes(f, markets, req, taker, bids, c);
      var bid := f.orders[bids[0]];
      var fill := Min(c.remaining, bid.remaining);
      FirstOffer(f, bids);
      FillRefused(f, req, taker, bids[0], fill);
      CostOfFirst(offers, c.remaining);
      BidsArePositive(f, markets, taker, bids);
      CostIsNatural(offers[1..], c.remaining - fill);
      var r := SellFill(f, req, taker, bids[0], fill);
      if r.Ok? {
        var g, d := r.value, Advance(c, bid.price, fill);
        QueuedFacts(g, markets, req, taker, bids[1..], d);
        OffersAfterFill(f, g, markets, taker, bids, fill);
        LoopRefused(g, markets, req, taker, bids[1..], d);
      }
    }
  }

  lemma NothingPaid(offers: seq<Offer>, n: int)
    requires offers == [] || n == 0
    ensures CheapestCost(offers, n) == 0
  {
  }

  lemma FirstOffer(f: Floor, bids: seq<Id>)
    requires bids != [] && forall k :: 0 <= k < |bids| ==> bids[k] < |f.orders|
    ensures var offers := OffersOf(f.orders, bids);
            offers != [] && offers[0] == Offer(f.orders[bids[0]].price, f.orders[bids[0]].remaining)
  {
  }

  lemma QueuedParts(f: Floor, markets: seq<Venue>, req: Request, taker: Id, ids: seq<Id>, c: Cursor)
    requires Queued(f, markets, req, taker, ids, c) && ids != []
    ensures Sound(f, markets, taker) && BankOk(f) && TakerRow(f, req, taker)
    ensures ids[0] < |f.orders| && RowOk(f.orders[ids[0]]) && Resting(f.orders[ids[0]])
    ensures req.side.Sell? ==> f.orders[ids[0]].side.Buy?
  {
    hide Sum; hide Total;
    assert Meets(f, markets, taker, ids[0]);
  }

  // ----- the whole sell -----

  lemma BalanceFits(f: Floor, markets: seq<Venue>, p: Player)
    requires Sound(f, markets, -1) && p in f.accounts
    ensures 0 <= f.accounts[p] <= INT64_MAX
  {
    hide Sum; hide Total;
  }

  /**
   A sell of a player with an account, at an active market, is refused exactly when the balance
   cannot hold what the waiting bids pay; a committed one is paid exactly that.
   */
  lemma SellIsPaid(f: Floor, markets: seq<Venue>, req: Request)
    requires Sound(f, markets, -1) && ValidOrder(req) && req.side.Sell? && PricedRows(f)
    requires req.market < |markets| && markets[req.market].active && req.player in f.accounts
    ensures match PlaceSell(f, markets, req)
            case Err(x) => x == BalanceOverflow && f.accounts[req.player] + SellValue(f, markets, req) > INT64_MAX
            case Ok((_, x)) =>
              && x.gross == SellValue(f, markets, req)
              && x.balance == f.accounts[req.player] + SellValue(f, markets, req) <= INT64_MAX
  {
    hide Sum; hide Total; hide Sound; hide Running; hide Candidates; hide PricedRows; hide SameHoldings;
    hide SellLoop; hide ValidMakers; hide Queued; hide OffersOf; hide CheapestCost;
    var g := OpenSell(f, req).value;
    var q := MakerQuery(req, markets[req.market].book);
    var c := Cursor(req.quantity, 0, 0);
    var bids := Candidates(g.orders, markets, q);
    OpenSellReady(f, g, markets, req);
    OpenedIsQueued(f, g, markets, req);
    QueuedFacts(g, markets, req, |f.orders|, bids, c);
    BalanceFits(f, markets, req.player);
    LoopRefused(g, markets, req, |f.orders|, bids, c);
    SameQueueAfterInsertion(f, g, markets, req, NewOrder(req, 0));
    assert OffersFor(f, markets, req) == OffersOf(g.orders, bids) by { SameOffers(f, g, bids); }
    PlaceSellExecutes(f, markets, req);
  }

  // ----- no other choice pays more -----

  /** Offers with something to buy, dearest first. */
  predicate Falling(offers: seq<Offer>)
  {
    Positive(offers) && forall j, k :: 0 <= j < k < |offers| ==> offers[j].price >= offers[k].price
  }

  /** `extra` further units bring at most the highest price each. */
  lemma {:induction false} MarginalAtMost(offers: seq<Offer>, k: int, extra: int, price: int)
    requires Positive(offers) && 0 <= k && 0 <= extra && 0 <= price
    requires forall i :: 0 <= i < |offers| ==> offers[i].price <= price
    ensures CheapestCost(offers, k + extra) <= CheapestCost(offers, k) + price * extra
    decreases |offers|
  {
    if offers == [] || extra == 0 {
      SmallerProduct(price, 0, extra);
    } else {
      var p, u := offers[0].price, offers[0].units;
      var a, b := Min(k, u), Min(k + extra, u);
      MarginalAtMost(offers[1..], k - a, extra - (b - a), price);
      SplitCost(p, a, b - a);
      SplitCost(price, b - a, extra - (b - a));
      MoreIsDearer(p, price, b - a);
    }
  }

  lemma {:induction false} NoDearerChoice(offers: seq<Offer>, take: seq<int>, n: int)
    requires Falling(offers) && Choice(offers, take) && Units(take) <= n
    ensures Cost(offers, take) <= CheapestCost(offers, n)
    decreases |offers|
  {
    if offers != [] {
      var rest, later := offers[1..], take[1..];
      assert Choice(rest, later) && Falling(rest);
      UnitsInStock(rest, later);
      var p, t := offers[0].price, take[0];
      var fill := Min(n, offers[0].units);
      NoDearerChoice(rest, later, n - t);
      MarginalAtMost(rest, n - fill, fill - t, p);
      SplitCost(p, t, fill - t);
    }
  }

  lemma OffersAreFalling(f: Floor, markets: seq<Venue>, req: Request)
    requires Sound(f, markets, -1) && req.market < |markets| && req.side.Sell?
    ensures Falling(OffersFor(f, markets, req))
  {
    hide Sum; hide Total; hide Candidates;
    var q := MakerQuery(req, markets[req.market].book);
    var ids := Candidates(f.orders, markets, q);
    CandidatesAreTheQueue(f.orders, markets, q);
    forall k | 0 <= k < |ids|
      ensures 0 < f.orders[ids[k]].price && 0 < f.orders[ids[k]].remaining
    {
      assert Eligible(f.orders[ids[k]], markets, q) && RowOk(f.orders[ids[k]]);
    }
    forall j, k | 0 <= j < k < |ids|
      ensures f.orders[ids[j]].price >= f.orders[ids[k]].price
    {
      assert Before(f.orders, Buy, ids[j], ids[k]);
    }
  }

  /** A committed sell is paid no less than any other choice of the waiting bids would pay for as many units. */
  lemma SellIsOptimal(f: Floor, markets: seq<Venue>, req: Request, take: seq<int>)
    requires Sound(f, markets, -1) && ValidOrder(req) && req.side.Sell? && PricedRows(f)
    requires req.market < |markets| && Choice(OffersFor(f, markets, req), take) && Units(take) <= req.quantity
    ensures match PlaceSell(f, markets, req)
            case Err(_) => true
            case Ok((_, x)) => Cost(OffersFor(f, markets, req), take) <= x.gross
  {
    hide Sum; hide Total; hide Sound; hide PlaceSell; hide PricedRows; hide OffersFor; hide CheapestCost; hide Executed;
    PlaceSellExecutes(f, markets, req);
    OffersAreFalling(f, markets, req);
    NoDearerChoice(OffersFor(f, markets, req), take, req.quantity);
    if PlaceSell(f, markets, req).Ok? {
      PlacedActive(f, markets, req);
      SellIsPaid(f, markets, req);
    }
  }

  lemma PlacedActive(f: Floor, markets: seq<Venue>, req: Request)
    requires PricedRows(f) && (req.kind.Limit? ==> req.price > 0) && PlaceSell(f, markets, req).Ok?
    ensures req.market < |markets| && markets[req.market].active && req.player in f.accounts
  {
    hide SellLoop; hide Candidates; hide PricedRows;
  }
}
