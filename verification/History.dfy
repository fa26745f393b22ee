/** What no later call can undo: rows are never lost, and every status only moves forward. */
module History {
  import opened Sums
  import opened Domain
  import opened Matching
  import opened Settlement
  import opened MatchingLoops
  import opened Placement
  import opened Cancellation
  import opened Growth
  import opened Exchange
  import opened Invariants
  import opened StepsMoney
  import opened StepsTrade
  import opened Runs

  // ----- one row, earlier and later -----

  predicate ClaimForward(c: Claim, n: Claim)
  {
    && n.delivery == c.delivery && n.owner == c.owner && n.quantity == c.quantity
    && (c.status.ClaimPrepared? || (n.status == c.status && n.applied == c.applied && (c.cleaned ==> n.cleaned)))
  }

  predicate EscrowForward(e: Escrow, n: Escrow)
  {
    && n.market == e.market && n.owner == e.owner && n.name == e.name && n.kind == e.kind && n.price == e.price
    && n.requested == e.requested
    && match e.status
       case EscrowPrepared => true
       case EscrowTagged =>
         n.tagged == e.tagged && n.receipts == e.receipts && (n.status.EscrowTagged? || n.status.EscrowOrdered?)
       case EscrowOrdered => n == e.(cleaned := n.cleaned) && (e.cleaned ==> n.cleaned)
       case EscrowCanceled => n == e
  }

  predicate TransferForward(x: Transfer, n: Transfer)
  {
    && n.owner == x.owner && n.name == x.name && n.direction == x.direction && n.cents == x.cents && n.units == x.units
    && n.before == x.before
    && match x.status
       case TransferPrepared => true
       case ExternalApplied => n.after == x.after && (n.status.ExternalApplied? || n.status.TransferCompleted?)
       case _ => n == x
  }

  predicate ListingForward(l: Listing, n: Listing)
  {
    && n.target == l.target && n.seller == l.seller && n.price == l.price && n.item == l.item
    && match l.status
       case ListingActive => true
       case ListingPaid => n.buyer == l.buyer && PaidFor(n.status)
       case ListingDropped => n.buyer == l.buyer && (n.status.ListingDropped? || n.status.ListingClaimed?)
       case _ => n == l
  }

  predicate VenueForward(v: Venue, n: Venue)
  {
    n == v.(active := n.active, reopenable := n.reopenable) && (Retired(v) ==> Retired(n))
  }

  predicate DeliveryForward(d: Delivery, n: Delivery)
  {
    SameGoods(d, n) && d.claimed <= n.claimed
  }

  // ----- whole tables -----

  ghost predicate DeliveriesForward(s: seq<Delivery>, n: seq<Delivery>)
  {
    |s| <= |n| && forall i :: 0 <= i < |s| ==> DeliveryForward(s[i], n[i])
  }

  ghost predicate FloorForward(f: Floor, g: Floor)
  {
    && f.accounts.Keys <= g.accounts.Keys && f.ledger <= g.ledger && f.trades <= g.trades
    && OrdersKept(f.orders, g.orders) && DeliveriesForward(f.deliveries, g.deliveries)
  }

  ghost predicate ClaimsForward(s: seq<Claim>, n: seq<Claim>)
  {
    |s| <= |n| && forall i :: 0 <= i < |s| ==> ClaimForward(s[i], n[i])
  }

  ghost predicate EscrowsForward(s: seq<Escrow>, n: seq<Escrow>)
  {
    |s| <= |n| && forall i :: 0 <= i < |s| ==> EscrowForward(s[i], n[i])
  }

  ghost predicate TransfersForward(s: seq<Transfer>, n: seq<Transfer>)
  {
    |s| <= |n| && forall i :: 0 <= i < |s| ==> TransferForward(s[i], n[i])
  }

  ghost predicate ListingsForward(s: seq<Listing>, n: seq<Listing>)
  {
    |s| <= |n| && forall i :: 0 <= i < |s| ==> ListingForward(s[i], n[i])
  }

  ghost predicate VenuesForward(s: seq<Venue>, n: seq<Venue>)
  {
    |s| <= |n| && forall i :: 0 <= i < |s| ==> VenueForward(s[i], n[i])
  }

  ghost predicate Forward(t: Tables, u: Tables)
  {
    && FloorForward(t.floor, u.floor) && t.books <= u.books && VenuesForward(t.markets, u.markets)
    && ClaimsForward(t.claims, u.claims) && EscrowsForward(t.escrows, u.escrows)
    && TransfersForward(t.transfers, u.transfers) && ListingsForward(t.listings, u.listings)
  }

  lemma ForwardRefl(t: Tables)
    ensures Forward(t, t)
  {
  }

  lemma FloorForwardTrans(f: Floor, g: Floor, h: Floor)
    requires FloorForward(f, g) && FloorForward(g, h)
    ensures FloorForward(f, h)
  {
    forall i | 0 <= i < |f.orders|
      ensures Weaker(f.orders[i], h.orders[i])
    {
      assert Weaker(f.orders[i], g.orders[i]) && Weaker(g.orders[i], h.orders[i]);
    }
    forall i | 0 <= i < |f.deliveries|
      ensures DeliveryForward(f.deliveries[i], h.deliveries[i])
    {
      assert DeliveryForward(f.deliveries[i], g.deliveries[i]) && DeliveryForward(g.deliveries[i], h.deliveries[i]);
    }
  }

  lemma EscrowsForwardTrans(s: seq<Escrow>, n: seq<Escrow>, m: seq<Escrow>)
    requires EscrowsForward(s, n) && EscrowsForward(n, m)
    ensures EscrowsForward(s, m)
  {
    forall i | 0 <= i < |s|
      ensures EscrowForward(s[i], m[i])
    {
      assert EscrowForward(s[i], n[i]) && EscrowForward(n[i], m[i]);
    }
  }

  lemma TransfersForwardTrans(s: seq<Transfer>, n: seq<Transfer>, m: seq<Transfer>)
    requires TransfersForward(s, n) && TransfersForward(n, m)
    ensures TransfersForward(s, m)
  {
    forall i | 0 <= i < |s|
      ensures TransferForward(s[i], m[i])
    {
      assert TransferForward(s[i], n[i]) && TransferForward(n[i], m[i]);
    }
  }

  lemma ListingsForwardTrans(s: seq<Listing>, n: seq<Listing>, m: seq<Listing>)
    requires ListingsForward(s, n) && ListingsForward(n, m)
    ensures ListingsForward(s, m)
  {
    forall i | 0 <= i < |s|
      ensures ListingForward(s[i], m[i])
    {
      assert ListingForward(s[i], n[i]) && ListingForward(n[i], m[i]);
    }
  }

  lemma ClaimsAndVenuesForwardTrans(s: Tables, n: Tables, m: Tables)
    requires ClaimsForward(s.claims, n.claims) && ClaimsForward(n.claims, m.claims)
    requires VenuesForward(s.markets, n.markets) && VenuesForward(n.markets, m.markets)
    ensures ClaimsForward(s.claims, m.claims) && VenuesForward(s.markets, m.markets)
  {
    forall i | 0 <= i < |s.claims|
      ensures ClaimForward(s.claims[i], m.claims[i])
    {
      assert ClaimForward(s.claims[i], n.claims[i]) && ClaimForward(n.claims[i], m.claims[i]);
    }
    forall i | 0 <= i < |s.markets|
      ensures VenueForward(s.markets[i], m.markets[i])
    {
      assert VenueForward(s.markets[i], n.markets[i]) && VenueForward(n.markets[i], m.markets[i]);
    }
  }

  lemma ForwardTrans(s: Tables, t: Tables, u: Tables)
    requires Forward(s, t) && Forward(t, u)
    ensures Forward(s, u)
  {
    hide FloorForward; hide VenuesForward; hide ClaimsForward; hide EscrowsForward; hide TransfersForward;
    hide ListingsForward;
    FloorForwardTrans(s.floor, t.floor, u.floor);
    EscrowsForwardTrans(s.escrows, t.escrows, u.escrows);
    TransfersForwardTrans(s.transfers, t.transfers, u.transfers);
    ListingsForwardTrans(s.listings, t.listings, u.listings);
    ClaimsAndVenuesForwardTrans(s, t, u);
  }

  // ----- trading -----

  lemma GrownIsForward(f: Floor, g: Floor, markets: seq<Venue>)
    requires Grown(f, g) && OrdersKept(f.orders, g.orders) && SameHoldings(f, g, markets)
    ensures FloorForward(f, g)
  {
    hide Money; hide Position; hide Surplus; hide Undelivered; hide Unaccounted;
  }

  lemma PlaceMovesForward(t: Tables, req: Request, sha: string -> int)
    requires Good(t, sha) && ValidOrder(req) && PricedRows(t.floor)
    ensures Forward(t, AfterPair(t, Place(t, req)))
  {
    hide Good; hide PlaceBuy; hide PlaceSell; hide Executed; hide Sound; hide SameHoldings; hide Grown; hide OrdersKept;
    hide PricedRows; hide FloorForward;
    ForwardRefl(t);
    var f := t.floor;
    GoodIsSound(t, sha);
    if req.side.Buy? {
      PlaceBuyExecutes(f, t.markets, req);
      PlaceBuyGrows(f, t.markets, req);
    } else {
      PlaceSellExecutes(f, t.markets, req);
      PlaceSellGrows(f, t.markets, req);
    }
    var r := Place(t, req);
    if r.Ok? {
      ExecutedKeepsOrders(f, r.value.0.floor, t.markets, req, r.value.1);
      GrownIsForward(f, r.value.0.floor, t.markets);
    }
  }

  lemma CancelMovesForward(t: Tables, id: Id, p: Player, administrator: bool, sha: string -> int)
    requires Good(t, sha)
    ensures Forward(t, After(t, CancelOrder(t, id, p, administrator)))
  {
    hide Good; hide Release; hide Sound; hide SameHoldings; hide Grown; hide OrdersKept; hide Released;
    hide FloorForward;
    ForwardRefl(t);
    var r := CancelOrder(t, id, p, administrator);
    if r.Ok? {
      var f := t.floor;
      GoodIsSound(t, sha);
      ReleaseWorks(f, t.markets, id, OrderCancelRefund, OrderCanceled);
      ReleaseGrows(f, id, OrderCancelRefund, OrderCanceled);
      RowNatural(f, t.markets, id);
      ReleasedKeepsOrders(f, r.value.floor, id, OrderCanceled);
      GrownIsForward(f, r.value.floor, t.markets);
    }
  }

  lemma RetireMovesForward(t: Tables, m: Id, sha: string -> int)
    requires Good(t, sha)
    ensures Forward(t, After(t, Retire(t, m)))
  {
    hide Good; hide ReleaseAll; hide RestingOf; hide Sound; hide SameHoldings; hide Grown; hide OrdersKept; hide RowOk;
    hide FloorForward;
    ForwardRefl(t);
    var r := Retire(t, m);
    if r.Ok? {
      var f, g := t.floor, r.value.floor;
      GoodIsSound(t, sha);
      RetireEmptiesMarket(f, t.markets, m);
      ReleaseAllGrows(f, RestingOf(f.orders, m, |f.orders|));
      AllRowsOk(f, t.markets);
      RetiredKeepsOrders(f.orders, g.orders, m);
      GrownIsForward(f, g, t.markets);
    }
  }

  lemma DeliveryAddedForward(f: Floor, p: Player, market: Id, quantity: int, reason: DeliveryReason)
    ensures FloorForward(f, AddDelivery(f, p, market, quantity, reason))
  {
  }

  lemma ExecuteEscrowMovesForward(t: Tables, e: Id, sha: string -> int)
    requires Good(t, sha) && Priced(t)
    ensures Forward(t, AfterPair(t, ExecuteEscrow(t, e)))
  {
    hide PlaceSell; hide Good; hide Executed; hide PricedRows; hide AddDelivery; hide SellRefused; hide FloorForward;
    hide ExecuteEscrow; hide OrdersKept; hide Grown; hide SameHoldings; hide Sound;
    ForwardRefl(t);
    ExecuteEscrowShape(t, e);
    if e < |t.escrows| && t.escrows[e].status.EscrowTagged? {
      var row := t.escrows[e];
      var req := EscrowRequest(row);
      EscrowTerms(t, e, sha);
      EscrowSells(t, e, sha);
      PlaceSellGrows(t.floor, t.markets, req);
      var r := PlaceSell(t.floor, t.markets, req);
      if r.Ok? {
        ExecutedKeepsOrders(t.floor, r.value.0, t.markets, req, r.value.1);
        GrownIsForward(t.floor, r.value.0, t.markets);
        DeliveryAddedForward(r.value.0, row.owner, row.market, row.tagged - row.requested, EscrowExcess);
        FloorForwardTrans(t.floor, r.value.0, AfterPair(t, ExecuteEscrow(t, e)).floor);
      }
    }
  }

  // ----- everything else -----

  lemma MarketsMoveForward(t: Tables, sha: string -> int, target: string, kind: TargetKind, item: Item, m: Id)
    ensures Forward(t, AfterPair(t, Activate(t, sha, target, kind, item)))
    ensures Forward(t, After(t, Close(t, m)))
  {
    hide FindBook; hide FindResumable; hide Fingerprint;
    hide FloorForward; hide ClaimsForward; hide EscrowsForward; hide TransfersForward; hide ListingsForward;
    ForwardRefl(t);
  }

  lemma ClaimsMoveForward(t: Tables, d: Id, p: Player, quantity: int, c: Id)
    ensures Forward(t, AfterPair(t, PrepareClaim(t, d, p, quantity)))
    ensures Forward(t, After(t, CompleteClaim(t, c, quantity)))
    ensures Forward(t, After(t, CleanClaim(t, c)))
  {
    hide VenuesForward; hide EscrowsForward; hide TransfersForward; hide ListingsForward;
    ForwardRefl(t);
  }

  lemma EscrowsMoveForward(t: Tables, req: Request, e: Id, tagged: int, receipts: int)
    ensures Forward(t, AfterPair(t, PrepareEscrow(t, req)))
    ensures Forward(t, After(t, MarkTagged(t, e, tagged, receipts)))
    ensures Forward(t, After(t, CancelEscrow(t, e)))
    ensures Forward(t, After(t, CleanEscrow(t, e)))
  {
    hide FloorForward; hide VenuesForward; hide ClaimsForward; hide TransfersForward; hide ListingsForward;
    ForwardRefl(t);
  }

  lemma MoneyMovesForward(f: Floor, p: Player, amount: int, reason: LedgerReason, reference: Option<Id>)
    ensures match Credit(f, p, amount, reason, reference)
            case Ok(g) => FloorForward(f, g)
            case Err(_) => true
    ensures match Debit(f, p, amount, reason, reference)
            case Ok(g) => FloorForward(f, g)
            case Err(_) => true
    ensures p in f.accounts ==> FloorForward(f, Move(f, p, amount, reason, reference))
    ensures FloorForward(f, f)
  {
  }

  lemma BalanceMovesForward(t: Tables, cfg: Config, p: Player, delta: int)
    ensures Forward(t, After(t, EnsureAccount(t, cfg, p)))
    ensures Forward(t, After(t, AdjustBalance(t, p, delta)))
  {
    ForwardRefl(t);
  }

  lemma TransfersMoveForward(t: Tables, p: Player, name: string, direction: Direction, cents: int, units: int,
                             before: Option<int>, i: Id, balance: int)
    ensures Forward(t, AfterPair(t, PrepareTransfer(t, p, name, direction, cents, units, before)))
    ensures Forward(t, After(t, MarkExternalApplied(t, i, balance)))
    ensures Forward(t, After(t, BlockTransfer(t, i)))
  {
    hide FloorForward; hide VenuesForward; hide ClaimsForward; hide EscrowsForward; hide ListingsForward;
    hide Credit; hide Debit;
    ForwardRefl(t);
    MoneyMovesForward(t.floor, p, cents, UmoneyWithdrawReserved, Some(|t.transfers|));
  }

  lemma TransfersCloseForward(t: Tables, i: Id)
    ensures Forward(t, After(t, CompleteTransfer(t, i)))
    ensures Forward(t, After(t, FailTransfer(t, i)))
  {
    hide FloorForward; hide VenuesForward; hide ClaimsForward; hide EscrowsForward; hide ListingsForward;
    hide Credit; hide Debit;
    ForwardRefl(t);
    if i < |t.transfers| {
      MoneyMovesForward(t.floor, t.transfers[i].owner, t.transfers[i].cents, UmoneyDeposit, Some(i));
      MoneyMovesForward(t.floor, t.transfers[i].owner, t.transfers[i].cents, UmoneyWithdrawRefund, Some(i));
    }
  }

  lemma ListingsMoveForward(t: Tables, l: Listing, administrator: bool, id: Id, p: Player)
    ensures Forward(t, AfterPair(t, Upsert(t, l, administrator)))
    ensures Forward(t, After(t, CancelListing(t, id, p, administrator)))
    ensures Forward(t, After(t, MarkDropped(t, id)))
    ensures Forward(t, After(t, CompletePickup(t, id)))
  {
    hide FloorForward; hide VenuesForward; hide ClaimsForward; hide EscrowsForward; hide TransfersForward;
    ForwardRefl(t);
  }

  lemma PurchaseMovesForward(t: Tables, id: Id, buyer: Player, expected: int)
    ensures Forward(t, After(t, Purchase(t, id, buyer, expected)))
  {
    hide FloorForward; hide VenuesForward; hide ClaimsForward; hide EscrowsForward; hide TransfersForward;
    hide Credit; hide Debit;
    ForwardRefl(t);
    if id < |t.listings| {
      var l := t.listings[id];
      MoneyMovesForward(t.floor, buyer, l.price, FramePurchase, Some(id));
      var paid := Debit(t.floor, buyer, l.price, FramePurchase, Some(id));
      if paid.Ok? {
        MoneyMovesForward(paid.value, l.seller, l.price, FrameSale, Some(id));
        var sold := Credit(paid.value, l.seller, l.price, FrameSale, Some(id));
        if sold.Ok? { FloorForwardTrans(t.floor, paid.value, sold.value); }
      }
    }
  }

  lemma LaterMovesForward(t: Tables, cfg: Config, sha: string -> int, a: Action)
    requires Good(t, sha) && ConfigOk(cfg) && Priced(t)
    requires !a.DoEnsureAccount? && !a.DoAddBalance? && !a.DoActivate? && !a.DoClose? && !a.DoRetire? && !a.DoPlace?
    requires !a.DoCancel? && !a.DoPrepareClaim? && !a.DoCompleteClaim? && !a.DoCleanClaim?
    ensures Forward(t, Main(t, cfg, sha, a))
  {
    hide Good; hide Forward; hide PricedRows;
    hide AdjustBalance; hide Activate; hide Close; hide Retire; hide Place; hide CancelOrder; hide PrepareClaim;
    hide CompleteClaim; hide CleanClaim; hide PrepareEscrow; hide MarkTagged; hide ExecuteEscrow; hide CancelEscrow;
    hide CleanEscrow; hide PrepareTransfer; hide MarkExternalApplied; hide CompleteTransfer; hide FailTransfer;
    hide BlockTransfer; hide Upsert; hide CancelListing; hide Purchase; hide MarkDropped; hide CompletePickup;
    ForwardRefl(t);
    match a
    case DoPrepareEscrow(req) => EscrowsMoveForward(t, req, 0, 0, 0);
    case DoMarkTagged(e, tagged, receipts) =>
      EscrowsMoveForward(t, Request(0, "", "", Sell, Limit, 0, 0), e, tagged, receipts);
    case DoExecuteEscrow(e) => ExecuteEscrowMovesForward(t, e, sha);
    case DoCancelEscrow(e) => EscrowsMoveForward(t, Request(0, "", "", Sell, Limit, 0, 0), e, 0, 0);
    case DoCleanEscrow(e) => EscrowsMoveForward(t, Request(0, "", "", Sell, Limit, 0, 0), e, 0, 0);
    case DoPrepareTransfer(p, name, direction, cents, units, before) =>
      TransfersMoveForward(t, p, name, direction, cents, units, before, 0, 0);
    case DoMarkExternalApplied(i, balance) => TransfersMoveForward(t, "", "", Deposit, 0, 0, None, i, balance);
    case DoCompleteTransfer(i) => TransfersCloseForward(t, i);
    case DoFailTransfer(i) => TransfersCloseForward(t, i);
    case DoBlockTransfer(i) => TransfersMoveForward(t, "", "", Deposit, 0, 0, None, i, 0);
    case DoUpsert(l, administrator) => ListingsMoveForward(t, l, administrator, 0, "");
    case DoCancelListing(id, p, administrator) =>
      ListingsMoveForward(t, Listing("", "", 0, Item("", 0, ""), ListingActive, None), administrator, id, p);
    case DoPurchase(id, buyer, expected) => PurchaseMovesForward(t, id, buyer, expected);
    case DoMarkDropped(id) =>
      ListingsMoveForward(t, Listing("", "", 0, Item("", 0, ""), ListingActive, None), false, id, "");
    case DoCompletePickup(id) =>
      ListingsMoveForward(t, Listing("", "", 0, Item("", 0, ""), ListingActive, None), false, id, "");
  }

  lemma MainMovesForward(t: Tables, cfg: Config, sha: string -> int, a: Action)
    requires Good(t, sha) && ConfigOk(cfg) && Priced(t)
    ensures Forward(t, Main(t, cfg, sha, a))
  {
    hide Good; hide Forward; hide PricedRows;
    hide AdjustBalance; hide Activate; hide Close; hide Retire; hide Place; hide CancelOrder; hide PrepareClaim;
    hide CompleteClaim; hide CleanClaim; hide PrepareEscrow; hide MarkTagged; hide ExecuteEscrow; hide CancelEscrow;
    hide CleanEscrow; hide PrepareTransfer; hide MarkExternalApplied; hide CompleteTransfer; hide FailTransfer;
    hide BlockTransfer; hide Upsert; hide CancelListing; hide Purchase; hide MarkDropped; hide CompletePickup;
    ForwardRefl(t);
    match a
    case DoEnsureAccount(_) =>
    case DoAddBalance(p, delta) => BalanceMovesForward(t, cfg, p, delta);
    case DoActivate(target, kind, item) => MarketsMoveForward(t, sha, target, kind, item, 0);
    case DoClose(m) => MarketsMoveForward(t, sha, "", Block, Item("", 0, ""), m);
    case DoRetire(m) => RetireMovesForward(t, m, sha);
    case DoPlace(req) =>
      if Validate(cfg, req).None? {
        ValidatedIsValid(cfg, req);
        PlaceMovesForward(t, req, sha);
      }
    case DoCancel(id, p, administrator) => CancelMovesForward(t, id, p, administrator, sha);
    case DoPrepareClaim(d, p, quantity) => ClaimsMoveForward(t, d, p, quantity, 0);
    case DoCompleteClaim(c, quantity) => ClaimsMoveForward(t, 0, "", quantity, c);
    case DoCleanClaim(c) => ClaimsMoveForward(t, 0, "", 0, c);
    case _ => LaterMovesForward(t, cfg, sha, a);
  }

  lemma StepMovesForward(t: Tables, cfg: Config, sha: string -> int, a: Action)
    requires Good(t, sha) && ConfigOk(cfg) && Priced(t)
    ensures Forward(t, Step(t, cfg, sha, a))
  {
    hide Good; hide Main; hide Forward; hide EnsureAccount;
    OpenedKeepsGood(t, cfg, a, sha);
    var u := Opened(t, cfg, a);
    ForwardRefl(t);
    if Opens(cfg, a).Some? { BalanceMovesForward(t, cfg, Opens(cfg, a).value, 0); }
    MainMovesForward(u, cfg, sha, a);
    ForwardTrans(t, u, Main(u, cfg, sha, a));
  }

  /** Over any run, what was true of a row at some point bounds what the row can be at any later point. */
  lemma {:induction false} RunsMoveForward(calls: seq<Call>, n: nat, sha: string -> int)
    requires CallsOk(calls) && n <= |calls|
    ensures Forward(Run(calls[..n], sha), Run(calls, sha))
    decreases |calls|
  {
    hide Forward; hide Good; hide Priced;
    if n == |calls| {
      assert calls[..n] == calls;
      ForwardRefl(Run(calls, sha));
    } else {
      var m := |calls| - 1;
      var front := calls[..m];
      assert front[..n] == calls[..n];
      RunsMoveForward(front, n, sha);
      StepMovesForward(Run(front, sha), calls[m].cfg, sha, calls[m].action);
      ForwardTrans(Run(calls[..n], sha), Run(front, sha), Run(calls, sha));
    }
  }
}
