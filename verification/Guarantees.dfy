/** What the service promises, for every database that any run of calls can reach. */
module Guarantees {
  import opened Sums
  import opened Domain
  import opened Matching
  import opened Settlement
  import opened MatchingLoops
  import opened Placement
  import opened Cancellation
  import opened Growth
  import Decimal
  import opened Exchange
  import opened Invariants
  import opened StepsMoney
  import opened StepsTrade
  import opened Runs
  import opened History

  lemma GoodItems(t: Tables, sha: string -> int)
    requires Good(t, sha)
    ensures ItemsOk(t.floor, t.markets, t.escrows)
  {
    hide Sum; hide Total;
  }

  lemma GoodCash(t: Tables, sha: string -> int)
    requires Good(t, sha)
    ensures CashOk(t.floor, t.transfers)
  {
    hide Sum; hide Total;
  }

  lemma GoodTransfers(t: Tables, sha: string -> int)
    requires Good(t, sha)
    ensures TransfersOk(t.transfers, t.floor.ledger, t.floor.accounts.Keys)
  {
    hide Sum; hide Total;
  }

  lemma GoodListings(t: Tables, sha: string -> int)
    requires Good(t, sha)
    ensures ListingsOk(t.listings, t.frames, t.floor.accounts.Keys) && SalesOk(t.listings, t.floor.ledger)
  {
    hide Sum; hide Total;
  }

  // ----- the book -----

  /** No run leaves a bid of one player at or above an ask of another in the same book. */
  lemma NoBookIsCrossed(calls: seq<Call>, sha: string -> int, i: Id, j: Id)
    requires CallsOk(calls)
    requires var t := Run(calls, sha);
             i < |t.floor.orders| && j < |t.floor.orders| && Opposed(t.floor.orders[i], t.floor.orders[j], t.markets)
    ensures Run(calls, sha).floor.orders[i].price < Run(calls, sha).floor.orders[j].price
  {
    hide Sum; hide Total; hide Good;
    GoodIsSound(Run(calls, sha), sha);
  }

  /** Whether an order has units left to trade, and what it holds in reserve for them. */
  lemma OrdersAddUp(calls: seq<Call>, sha: string -> int, i: Id)
    requires CallsOk(calls) && i < |Run(calls, sha).floor.orders|
    ensures var f := Run(calls, sha).floor;
            var o, traded := f.orders[i], Sum(f.trades, UnitsOf(f.orders[i].side, i));
            && 0 <= traded <= o.original && 0 <= o.remaining
            && (o.kind.Limit? && !o.status.Canceled? ==> o.original == o.remaining + traded)
            && (o.kind.Market? || o.status.Canceled? ==> o.remaining == 0)
            && o.reserved == (if Resting(o) && o.side.Buy? then o.price * o.remaining else 0)
            && (Resting(o) <==> 0 < o.remaining)
  {
    hide Sum; hide Total; hide Good; hide Sound;
    var f := Run(calls, sha).floor;
    GoodIsSound(Run(calls, sha), sha);
    OrderAddsUp(f, Run(calls, sha).markets, i);
  }

  lemma OrderAddsUp(f: Floor, markets: seq<Venue>, i: Id)
    requires Sound(f, markets, -1) && i < |f.orders|
    ensures var o, traded := f.orders[i], Traded(f, i);
            && 0 <= traded <= o.original && 0 <= o.remaining
            && (o.kind.Limit? && !o.status.Canceled? ==> o.original == o.remaining + traded)
            && (o.kind.Market? || o.status.Canceled? ==> o.remaining == 0)
            && o.reserved == (if Resting(o) && o.side.Buy? then o.price * o.remaining else 0)
            && (Resting(o) <==> 0 < o.remaining)
  {
    hide Sum; hide Total;
    TradedIsNatural(f, markets, i);
    assert RowOk(f.orders[i]) && TradedOk(f.orders[i], Traded(f, i));
  }

  /** Every trade: two players, one book, at the older order's price and within both limits. */
  lemma TradesAreFair(calls: seq<Call>, sha: string -> int, k: nat)
    requires CallsOk(calls) && k < |Run(calls, sha).floor.trades|
    ensures var t := Run(calls, sha);
            TradeOk(t.floor.orders, t.markets, t.floor.trades[k])
  {
    hide Sum; hide Total; hide Good;
    var t := Run(calls, sha);
    GoodIsSound(t, sha);
  }

  /** On reachable tables a valid order is refused for one of the listed reasons or not at all. */
  lemma OrdersAreRefusedForCause(calls: seq<Call>, sha: string -> int, req: Request)
    requires CallsOk(calls) && ValidOrder(req)
    ensures var t := Run(calls, sha);
            match Place(t, req)
            case Err(e) => if req.side.Buy? then BuyRefused(t.floor, t.markets, req, e)
                           else SellRefused(t.floor, t.markets, req, e)
            case Ok((u, x)) => Executed(t.floor, u.floor, t.markets, req, x)
  {
    hide Good; hide Priced;
    var t := Run(calls, sha);
    GoodIsSound(t, sha);
    hide PlaceBuy; hide PlaceSell; hide Executed; hide Sound; hide BuyRefused; hide SellRefused; hide PricedRows;
    if req.side.Buy? { PlaceBuyExecutes(t.floor, t.markets, req); } else { PlaceSellExecutes(t.floor, t.markets, req); }
  }

  // ----- money -----

  /** Every account's ledger sums up to its balance, which is never negative. */
  lemma LedgersAddUp(calls: seq<Call>, sha: string -> int, p: Player)
    requires CallsOk(calls)
    ensures var f := Run(calls, sha).floor;
            0 <= BalanceOf(f, p) <= INT64_MAX && Sum(f.ledger, DeltaOf(p)) == BalanceOf(f, p)
  {
    hide Sum; hide Total; hide Good;
    var f := Run(calls, sha).floor;
    GoodIsSound(Run(calls, sha), sha);
    SoundHasBank(f, Run(calls, sha).markets, -1);
    hide Sound;
    if p !in f.accounts { SumZero(f.ledger, DeltaOf(p)); }
  }

  /** A player's cash and reserves are what came in, less what the player's purchases cost more than sales earned. */
  lemma PositionsAddUp(calls: seq<Call>, sha: string -> int, p: Player)
    requires CallsOk(calls)
    ensures var f := Run(calls, sha).floor;
            BalanceOf(f, p) + Sum(f.orders, ReserveOf(p))
            == Sum(f.ledger, Inflow(p)) - Sum(f.trades, NetSpent(p))
  {
    hide Sum; hide Total; hide Good;
    GoodCash(Run(calls, sha), sha);
  }

  /** Cents a completed deposit added or an unfailed withdrawal took. */
  lemma MoneyAddsUp(calls: seq<Call>, sha: string -> int)
    requires CallsOk(calls)
    ensures var t := Run(calls, sha);
            Total(t.floor.accounts) + Sum(t.floor.orders, OpenReserve())
            == Sum(t.floor.ledger, Minted()) + Sum(t.transfers, NetOf())
  {
    hide Sum; hide Total; hide Good;
    GoodCash(Run(calls, sha), sha);
  }

  /** Orders, cancellations, retirements, escrow sells and frame purchases neither make nor lose money. */
  lemma TradingConservesMoney(t: Tables, cfg: Config, sha: string -> int, a: Action)
    requires Good(t, sha) && ConfigOk(cfg) && Priced(t)
    requires a.DoPlace? || a.DoCancel? || a.DoRetire? || a.DoExecuteEscrow? || a.DoPurchase?
    ensures Money(Main(t, cfg, sha, a).floor) == Money(t.floor)
  {
    hide Good; hide PricedRows; hide Sound; hide Money; hide Executed;
    hide Retire; hide Place; hide CancelOrder; hide ExecuteEscrow; hide Purchase;
    match a
    case DoPlace(req) => if Validate(cfg, req).None? { ValidatedIsValid(cfg, req); PlaceConserves(t, req, sha); }
    case DoCancel(id, p, administrator) => CancelConserves(t, id, p, administrator, sha);
    case DoRetire(m) => RetireConserves(t, m, sha);
    case DoExecuteEscrow(e) => ExecuteEscrowConserves(t, e, sha);
    case DoPurchase(id, buyer, expected) => PurchaseKeepsGood(t, id, buyer, expected, sha);
  }

  lemma PlaceConserves(t: Tables, req: Request, sha: string -> int)
    requires Good(t, sha) && ValidOrder(req) && PricedRows(t.floor)
    ensures Money(AfterPair(t, Place(t, req)).floor) == Money(t.floor)
  {
    hide Good; hide PlaceBuy; hide PlaceSell; hide Sound; hide Money; hide Executed; hide PricedRows; hide OrdersKept;
    GoodIsSound(t, sha);
    if req.side.Buy? { PlaceBuyExecutes(t.floor, t.markets, req); } else { PlaceSellExecutes(t.floor, t.markets, req); }
    var r := Place(t, req);
    if r.Ok? { ExecutedKeepsOrders(t.floor, r.value.0.floor, t.markets, req, r.value.1); }
  }

  lemma CancelConserves(t: Tables, id: Id, p: Player, administrator: bool, sha: string -> int)
    requires Good(t, sha)
    ensures Money(After(t, CancelOrder(t, id, p, administrator)).floor) == Money(t.floor)
  {
    hide Good; hide Release; hide Sound; hide Released; hide Money;
    GoodIsSound(t, sha);
    if id < |t.floor.orders| && Resting(t.floor.orders[id]) {
      ReleaseWorks(t.floor, t.markets, id, OrderCancelRefund, OrderCanceled);
    }
  }

  lemma RetireConserves(t: Tables, m: Id, sha: string -> int)
    requires Good(t, sha)
    ensures Money(After(t, Retire(t, m)).floor) == Money(t.floor)
  {
    hide Good; hide ReleaseAll; hide RestingOf; hide Sound; hide Money;
    GoodIsSound(t, sha);
    RetireEmptiesMarket(t.floor, t.markets, m);
  }

  lemma ExecuteEscrowConserves(t: Tables, e: Id, sha: string -> int)
    requires Good(t, sha) && Priced(t)
    ensures Money(AfterPair(t, ExecuteEscrow(t, e)).floor) == Money(t.floor)
  {
    hide PlaceSell; hide Good; hide Executed; hide PricedRows; hide SellRefused; hide ExecuteEscrow; hide Sound;
    hide OrdersKept; hide Sum; hide Total; hide Position; hide Surplus; hide Undelivered; hide Unaccounted;
    ExecuteEscrowShape(t, e);
    if e < |t.escrows| && t.escrows[e].status.EscrowTagged? {
      EscrowSells(t, e, sha);
      var req := EscrowRequest(t.escrows[e]);
      var r := PlaceSell(t.floor, t.markets, req);
      if r.Ok? { ExecutedKeepsOrders(t.floor, r.value.0, t.markets, req, r.value.1); }
    }
  }

  // ----- backing -----

  function WithdrawalsHeld(): Transfer -> int
  {
    (x: Transfer) =>
      if x.direction.Withdraw? && (x.status.TransferPrepared? || x.status.TransferBlocked?) then x.cents else 0
  }

  function DepositsTaken(): Transfer -> int
  {
    (x: Transfer) =>
      if x.direction.Deposit? && (x.status.ExternalApplied? || x.status.TransferCompleted?) then x.cents else 0
  }

  function WithdrawalsPaid(): Transfer -> int
  {
    (x: Transfer) =>
      if x.direction.Withdraw? && (x.status.ExternalApplied? || x.status.TransferCompleted?) then x.cents else 0
  }

  /** Deposits already taken from outside and not yet in their owner's balance. */
  function DepositsPending(): Transfer -> int
  {
    (x: Transfer) => if x.direction.Deposit? && x.status.ExternalApplied? then x.cents else 0
  }

  /** `economyBackingDeficit`. */
  ghost function BackingDeficit(t: Tables): int
  {
    Total(t.floor.accounts) + Sum(t.floor.orders, OpenReserve()) + Sum(t.transfers, WithdrawalsHeld())
    - Sum(t.transfers, DepositsTaken()) + Sum(t.transfers, WithdrawalsPaid())
  }

  lemma {:induction false} TransferColumns(s: seq<Transfer>)
    ensures Sum(s, NetOf()) + Sum(s, WithdrawalsHeld()) - Sum(s, DepositsTaken()) + Sum(s, WithdrawalsPaid())
            == -Sum(s, DepositsPending())
  {
    if s != [] { TransferColumns(s[..|s| - 1]); }
  }

  /** The deficit and the deposits on their way in are together exactly what was ever minted. */
  lemma DeficitIsWhatWasMinted(calls: seq<Call>, sha: string -> int)
    requires CallsOk(calls)
    ensures var t := Run(calls, sha);
            BackingDeficit(t) + Sum(t.transfers, DepositsPending()) == Sum(t.floor.ledger, Minted())
  {
    hide Sum; hide Total;
    var t := Run(calls, sha);
    MoneyAddsUp(calls, sha);
    TransferColumns(t.transfers);
    hide Good;
  }

  /** A ledger that only grew by entries that mint nothing. */
  ghost predicate NothingMinted(ledger: seq<Entry>, now: seq<Entry>)
  {
    ledger <= now && forall k :: |ledger| <= k < |now| ==> Minted()(now[k]) == 0
  }

  lemma TradingMintsNothing(f: Floor, g: Floor)
    requires Grown(f, g)
    ensures NothingMinted(f.ledger, g.ledger)
  {
  }

  /** Apart from opening accounts and `addBalance` no transaction mints money. */
  lemma MainMintsNothing(t: Tables, cfg: Config, sha: string -> int, a: Action)
    requires Priced(t) && !a.DoAddBalance?
    ensures NothingMinted(t.floor.ledger, Main(t, cfg, sha, a).floor.ledger)
  {
    hide Activate; hide Place; hide CancelOrder; hide Retire; hide ExecuteEscrow; hide PricedRows; hide Validate;
    hide PrepareTransfer; hide CompleteTransfer; hide FailTransfer; hide Purchase; hide NothingMinted; hide Upsert;
    hide Close; hide PrepareClaim; hide CompleteClaim; hide CleanClaim; hide PrepareEscrow; hide MarkTagged;
    hide CancelEscrow; hide CleanEscrow; hide MarkExternalApplied; hide BlockTransfer; hide CancelListing;
    hide MarkDropped; hide CompletePickup;
    match a
    case DoPrepareTransfer(p, name, direction, cents, units, before) =>
      NoEntryMintsNothing(t.floor.ledger);
      TransfersMintNothing(t, p, name, direction, cents, units, before, 0);
    case DoCompleteTransfer(i) => TransfersMintNothing(t, "", "", Deposit, 0, 0, None, i);
    case DoFailTransfer(i) => TransfersMintNothing(t, "", "", Deposit, 0, 0, None, i);
    case DoPurchase(_, _, _) =>
      NoEntryMintsNothing(t.floor.ledger);
      PurchaseMintsNothing(t, a.id, a.buyer, a.expected);
    case DoPlace(_) => OrdersMintNothing(t, cfg, sha, a);
    case DoCancel(_, _, _) => OrdersMintNothing(t, cfg, sha, a);
    case DoRetire(_) => OrdersMintNothing(t, cfg, sha, a);
    case DoExecuteEscrow(_) => OrdersMintNothing(t, cfg, sha, a);
    case _ =>
      hide Main;
      NoEntryMintsNothing(t.floor.ledger);
      RestPostsNothing(t, cfg, sha, a);
  }

  lemma OrdersMintNothing(t: Tables, cfg: Config, sha: string -> int, a: Action)
    requires Priced(t) && (a.DoPlace? || a.DoCancel? || a.DoRetire? || a.DoExecuteEscrow?)
    ensures NothingMinted(t.floor.ledger, Main(t, cfg, sha, a).floor.ledger)
  {
    hide Place; hide CancelOrder; hide Retire; hide ExecuteEscrow; hide PricedRows; hide Validate; hide NothingMinted;
    match a
    case DoPlace(req) =>
      NoEntryMintsNothing(t.floor.ledger);
      if Validate(cfg, req).None? { PlaceMintsNothing(t, req); }
    case DoCancel(id, p, administrator) => CancelMintsNothing(t, id, p, administrator);
    case DoRetire(m) => RetireMintsNothing(t, m);
    case DoExecuteEscrow(e) => ExecuteEscrowMintsNothing(t, e);
  }

  lemma NoEntryMintsNothing(ledger: seq<Entry>)
    ensures NothingMinted(ledger, ledger)
  {
  }

  /** An operation whose main transaction posts no ledger entry. */
  predicate PostsNothing(a: Action)
  {
    !a.DoAddBalance? && !a.DoPlace? && !a.DoCancel? && !a.DoRetire? && !a.DoExecuteEscrow? && !a.DoPrepareTransfer?
    && !a.DoCompleteTransfer? && !a.DoFailTransfer? && !a.DoPurchase?
  }

  lemma RestPostsNothing(t: Tables, cfg: Config, sha: string -> int, a: Action)
    requires Priced(t) && PostsNothing(a)
    ensures Main(t, cfg, sha, a).floor.ledger == t.floor.ledger
  {
    hide PricedRows; hide Validate; hide FindBook; hide FindResumable; hide UnbindAll; hide Unbind; hide Activate;
    if a.DoActivate? { ActivateTouchesNoMoney(t, sha, a.target, a.kind, a.item); }
  }

  lemma TransfersMintNothing(t: Tables, p: Player, name: string, direction: Direction, cents: int, units: int,
                             before: Option<int>, i: Id)
    ensures NothingMinted(t.floor.ledger,
                          AfterPair(t, PrepareTransfer(t, p, name, direction, cents, units, before)).floor.ledger)
    ensures NothingMinted(t.floor.ledger, After(t, CompleteTransfer(t, i)).floor.ledger)
    ensures NothingMinted(t.floor.ledger, After(t, FailTransfer(t, i)).floor.ledger)
  {
    hide Credit; hide Debit;
    MovesMintNothing(t);
  }

  lemma MovesMintNothing(t: Tables)
    ensures forall p, amount, reason, reference |
              reason in {UmoneyWithdrawReserved, UmoneyDeposit, UmoneyWithdrawRefund, FramePurchase, FrameSale} ::
              && (match Credit(t.floor, p, amount, reason, reference)
                  case Ok(g) => NothingMinted(t.floor.ledger, g.ledger)
                  case Err(_) => true)
              && (match Debit(t.floor, p, amount, reason, reference)
                  case Ok(g) => NothingMinted(t.floor.ledger, g.ledger)
                  case Err(_) => true)
  {
  }

  lemma PurchaseMintsNothing(t: Tables, id: Id, buyer: Player, expected: int)
    ensures NothingMinted(t.floor.ledger, After(t, Purchase(t, id, buyer, expected)).floor.ledger)
  {
  }

  lemma ActivateTouchesNoMoney(t: Tables, sha: string -> int, target: string, kind: TargetKind, item: Item)
    ensures AfterPair(t, Activate(t, sha, target, kind, item)).floor == t.floor
  {
  }

  lemma PlaceMintsNothing(t: Tables, req: Request)
    requires PricedRows(t.floor) && (req.kind.Limit? ==> req.price > 0)
    ensures NothingMinted(t.floor.ledger, AfterPair(t, Place(t, req)).floor.ledger)
  {
    hide PlaceBuy; hide PlaceSell; hide PricedRows; hide Grown;
    var r := Place(t, req);
    if r.Ok? {
      if req.side.Buy? { PlaceBuyGrows(t.floor, t.markets, req); } else { PlaceSellGrows(t.floor, t.markets, req); }
      TradingMintsNothing(t.floor, r.value.0.floor);
    }
  }

  lemma CancelMintsNothing(t: Tables, id: Id, p: Player, administrator: bool)
    ensures NothingMinted(t.floor.ledger, After(t, CancelOrder(t, id, p, administrator)).floor.ledger)
  {
    hide Release; hide Grown;
    var r := CancelOrder(t, id, p, administrator);
    if r.Ok? {
      ReleaseGrows(t.floor, id, OrderCancelRefund, OrderCanceled);
      TradingMintsNothing(t.floor, r.value.floor);
    }
  }

  lemma RetireMintsNothing(t: Tables, m: Id)
    ensures NothingMinted(t.floor.ledger, After(t, Retire(t, m)).floor.ledger)
  {
    hide ReleaseAll; hide RestingOf; hide Grown;
    var r := Retire(t, m);
    if r.Ok? {
      ReleaseAllGrows(t.floor, RestingOf(t.floor.orders, m, |t.floor.orders|));
      TradingMintsNothing(t.floor, r.value.floor);
    }
  }

  lemma ExecuteEscrowMintsNothing(t: Tables, e: Id)
    requires Priced(t)
    ensures NothingMinted(t.floor.ledger, AfterPair(t, ExecuteEscrow(t, e)).floor.ledger)
  {
    hide PlaceSell; hide PricedRows; hide Grown; hide ExecuteEscrow;
    ExecuteEscrowShape(t, e);
    if e < |t.escrows| && t.escrows[e].status.EscrowTagged? {
      var req := EscrowRequest(t.escrows[e]);
      PlaceSellGrows(t.floor, t.markets, req);
      var r := PlaceSell(t.floor, t.markets, req);
      if r.Ok? { TradingMintsNothing(t.floor, r.value.0); }
    }
  }

  /** What a call mints: the balance of the account it opens, and the amount of an `addBalance`. */
  function MintedBy(t: Tables, call: Call): int
  {
    (match Opens(call.cfg, call.action)
     case Some(p) => if p != "" && p !in t.floor.accounts then call.cfg.initialBalance else 0
     case None => 0)
    + match call.action
      case DoAddBalance(p, delta) =>
        if p != "" && AdjustBalance(Opened(t, call.cfg, call.action), p, delta).Ok? then delta else 0
      case _ => 0
  }

  lemma StepMints(t: Tables, call: Call, sha: string -> int)
    requires Priced(t) && Priced(Opened(t, call.cfg, call.action))
    ensures Sum(Step(t, call.cfg, sha, call.action).floor.ledger, Minted())
            == Sum(t.floor.ledger, Minted()) + MintedBy(t, call)
  {
    hide Sum; hide PricedRows; hide Main;
    var u := Opened(t, call.cfg, call.action);
    match Opens(call.cfg, call.action) {
      case None =>
      case Some(p) =>
        if p != "" && p !in t.floor.accounts {
          SumAppend(t.floor.ledger, Entry(p, call.cfg.initialBalance, AccountOpened, None), Minted());
        }
    }
    assert Sum(u.floor.ledger, Minted()) == Sum(t.floor.ledger, Minted())
             + (match Opens(call.cfg, call.action)
                case Some(p) => if p != "" && p !in t.floor.accounts then call.cfg.initialBalance else 0
                case None => 0);
    hide EnsureAccount; hide Opens; hide Opened;
    MainMints(u, call, sha);
  }

  lemma MainMints(u: Tables, call: Call, sha: string -> int)
    requires Priced(u)
    ensures Sum(Main(u, call.cfg, sha, call.action).floor.ledger, Minted())
            == Sum(u.floor.ledger, Minted())
               + match call.action
                 case DoAddBalance(p, delta) => if p != "" && AdjustBalance(u, p, delta).Ok? then delta else 0
                 case _ => 0
  {
    hide Sum; hide PricedRows; hide Place; hide Activate; hide Retire; hide ExecuteEscrow; hide CancelOrder;
    match call.action
    case DoAddBalance(p, delta) => SumAppend(u.floor.ledger, Entry(p, delta, AdminAdjustment, None), Minted());
    case _ =>
      hide Main;
      MainMintsNothing(u, call.cfg, sha, call.action);
      SumOverGrowth(u.floor.ledger, Main(u, call.cfg, sha, call.action).floor.ledger, Minted());
  }

  predicate UmoneyOnly(calls: seq<Call>)
  {
    forall i :: 0 <= i < |calls| ==> calls[i].cfg.initialBalance == 0 && !calls[i].action.DoAddBalance?
  }

  lemma {:induction false} UmoneyOnlyMintsNothing(calls: seq<Call>, sha: string -> int)
    requires CallsOk(calls) && UmoneyOnly(calls)
    ensures Sum(Run(calls, sha).floor.ledger, Minted()) == 0
  {
    hide Good; hide Priced;
    if calls != [] {
      var n := |calls| - 1;
      UmoneyOnlyMintsNothing(calls[..n], sha);
      var t := Run(calls[..n], sha);
      OpenedKeepsGood(t, calls[n].cfg, calls[n].action, sha);
      StepMints(t, calls[n], sha);
      hide Step; hide Opens;
      assert MintedBy(t, calls[n]) == 0;
    }
  }

  /** A database that was only ever used with UMoney is never refused at startup. */
  lemma UmoneyStartupNeverRefused(calls: seq<Call>, sha: string -> int)
    requires CallsOk(calls) && UmoneyOnly(calls)
    ensures BackingDeficit(Run(calls, sha)) <= 0
  {
    hide Sum; hide Total; hide Good; hide BackingDeficit;
    var t := Run(calls, sha);
    DeficitIsWhatWasMinted(calls, sha);
    UmoneyOnlyMintsNothing(calls, sha);
    GoodTransfers(t, sha);
    SumNonNegative(t.transfers, DepositsPending());
  }

  // ----- items -----

  /** Units on offer in a book and units delivered from it are the units that sell orders and escrows brought in. */
  lemma ItemsAddUp(calls: seq<Call>, sha: string -> int, b: Id)
    requires CallsOk(calls)
    ensures var t := Run(calls, sha);
            Sum(t.floor.orders, AskUnits(t.markets, b)) + Sum(t.floor.deliveries, DeliveryUnits(t.markets, b))
            == Sum(t.floor.orders, OfferedUnits(t.markets, b)) + Sum(t.escrows, ExcessIn(t.markets, b))
  {
    hide Sum; hide Total; hide Good;
    GoodItems(Run(calls, sha), sha);
  }

  /** Each player gets exactly the units bought, and loses of the units offered exactly the units sold. */
  lemma PlayersItemsAddUp(calls: seq<Call>, sha: string -> int, p: Player)
    requires CallsOk(calls)
    ensures var t := Run(calls, sha);
            && Sum(t.floor.trades, UnitsBought(p)) == Sum(t.floor.deliveries, UnitsDelivered(p))
            && Sum(t.floor.orders, OfferedBy(p)) + Sum(t.escrows, ExcessOf(p))
               == Sum(t.floor.orders, AskedBy(p)) + Sum(t.floor.trades, UnitsSold(p))
                  + Sum(t.floor.deliveries, UnitsReturned(p))
  {
    hide Sum; hide Total; hide Good; hide Run;
    GoodItems(Run(calls, sha), sha);
    var t := Run(calls, sha);
    assert Undelivered(t.floor, p) == 0 && Unaccounted(t.floor, p) == -Sum(t.escrows, ExcessOf(p));
  }

  /** A delivery is never handed out twice: what is claimed and what is promised fits in it. */
  lemma DeliveriesAddUp(calls: seq<Call>, sha: string -> int, d: Id)
    requires CallsOk(calls) && d < |Run(calls, sha).floor.deliveries|
    ensures var t := Run(calls, sha);
            var row := t.floor.deliveries[d];
            && row.reserved == Sum(t.claims, PreparedOf(d)) && row.claimed == Sum(t.claims, AppliedOf(d))
            && 0 <= row.claimed && 0 <= row.reserved && row.claimed + row.reserved <= row.quantity
  {
    hide Sum; hide Total; hide Good;
    GoodClaims(Run(calls, sha), sha);
    assert DeliveryOk(Run(calls, sha).claims, Run(calls, sha).floor.deliveries[d], d);
  }

  /** Completing a claim hits its guards for bad input only, and a repeat changes nothing or is refused. */
  lemma CompletionHappensOnce(t: Tables, sha: string -> int, c: Id, delivered: int, again: int)
    requires Good(t, sha)
    ensures var r := CompleteClaim(t, c, delivered);
            && (r.Err? ==> r.error !in {ReservationInvariant, DeliveryMissing})
            && (r.Ok? ==> CompleteClaim(r.value, c, again)
                          == if again == delivered then Ok(r.value)
                             else if again < 0 then Err(NegativeAmount) else Err(ClaimCompletedDifferently))
  {
    hide Good; hide Sum; hide CompleteClaim;
    CompleteClaimKeepsGood(t, c, delivered, sha);
    GoodClaims(t, sha);
    CompletionRepeats(t, c, delivered, again);
  }

  lemma CompletionRepeats(t: Tables, c: Id, delivered: int, again: int)
    requires ClaimsOk(t.claims, t.floor.deliveries)
    ensures var r := CompleteClaim(t, c, delivered);
            r.Ok? ==> CompleteClaim(r.value, c, again)
                      == if again == delivered then Ok(r.value)
                         else if again < 0 then Err(NegativeAmount) else Err(ClaimCompletedDifferently)
  {
    hide Sum; hide DeliveryOk;
    if c < |t.claims| {
      assert ClaimOk(t.claims[c], t.floor.deliveries);
      hide ClaimsOk;
    }
  }

  /** `executeSellEscrow` right after itself reports the same result and changes nothing. */
  lemma SecondExecuteRepeats(t: Tables, sha: string -> int, e: Id)
    requires Good(t, sha) && Priced(t) && ExecuteEscrow(t, e).Ok?
    ensures var (u, x) := ExecuteEscrow(t, e).value;
            Good(u, sha) && Priced(u) && ExecuteEscrow(u, e) == Ok((u, x))
  {
    hide Good; hide PlaceSell; hide SellRefused; hide PricedRows; hide Sum; hide Total; hide Executed;
    ExecuteEscrowKeepsGood(t, e, sha);
    GoodIsPriced(ExecuteEscrow(t, e).value.0, sha);
    ExecuteEscrowShape(t, e);
    if t.escrows[e].status.EscrowTagged? {
      EscrowSells(t, e, sha);
      var req := EscrowRequest(t.escrows[e]);
      var (g, x) := PlaceSell(t.floor, t.markets, req).value;
      ReportIsStored(t.floor, g, t.markets, req, x);
      SameSums(g, x.order);
    }
  }

  lemma ReportIsStored(f: Floor, g: Floor, markets: seq<Venue>, req: Request, x: Execution)
    requires Executed(f, g, markets, req, x) && req.side.Sell?
    ensures x.order < |g.orders| && req.player in g.accounts
    ensures x == Execution(x.order, g.orders[x.order].original, Sum(g.trades, UnitsOf(Sell, x.order)),
                           g.orders[x.order].remaining, Sum(g.trades, ValueOf(Sell, x.order)), g.accounts[req.player])
  {
    hide Sum; hide Total; hide Sound; hide Money; hide Position; hide Surplus; hide Undelivered; hide Unaccounted;
  }

  /** The two sums of the repeat branch are the ones the report was made from. */
  lemma SameSums(f: Floor, id: Id)
    ensures Sum(f.trades, SoldUnits(id)) == Sum(f.trades, UnitsOf(Sell, id))
    ensures Sum(f.trades, SoldValue(id)) == Sum(f.trades, ValueOf(Sell, id))
  {
    hide Sum;
    SumSame(f.trades, SoldUnits(id), UnitsOf(Sell, id));
    SumSame(f.trades, SoldValue(id), ValueOf(Sell, id));
  }

  // ----- transfers and listings -----

  /** What the ledger shows for a transfer is what its status says it did to the balance. */
  lemma TransfersPostOnce(calls: seq<Call>, sha: string -> int, i: Id)
    requires CallsOk(calls) && i < |Run(calls, sha).transfers|
    ensures var t := Run(calls, sha);
            var x := t.transfers[i];
            Sum(t.floor.ledger, TransferEntries(i))
            == (match x.direction
                case Deposit => if x.status.TransferCompleted? then x.cents else 0
                case Withdraw => if x.status.TransferFailed? then 0 else -x.cents)
  {
    hide Sum; hide Total; hide Good;
    GoodTransfers(Run(calls, sha), sha);
  }

  /** A frame is bound to a listing exactly while the listing is active, paid or dropped. */
  lemma ListingsAreBound(calls: seq<Call>, sha: string -> int, i: Id)
    requires CallsOk(calls) && i < |Run(calls, sha).listings|
    ensures var t := Run(calls, sha);
            var l := t.listings[i];
            && (Bound(l.status) <==> l.target in t.frames && t.frames[l.target] == i)
            && (forall j: nat | j < |t.listings| && Bound(l.status) && Bound(t.listings[j].status) ::
                  t.listings[j].target == l.target ==> j == i)
            && (forall k :: k in t.frames && t.frames[k] == i ==> k == l.target)
  {
    hide Sum; hide Total; hide Good; hide SalesOk;
    GoodListings(Run(calls, sha), sha);
  }

  /** A listing was paid for by exactly one debit and one matching credit, or by none at all. */
  lemma ListingsSellOnce(calls: seq<Call>, sha: string -> int, i: Id)
    requires CallsOk(calls) && i < |Run(calls, sha).listings|
    ensures var t := Run(calls, sha);
            var l := t.listings[i];
            && SaleOk(l, i, t.floor.ledger) && (PaidFor(l.status) <==> l.buyer.Some?)
            && (l.buyer.Some? ==> l.buyer.value != l.seller)
  {
    hide Sum; hide Total; hide Good; hide ListingsOk; hide SalesOk; hide SaleCount; hide EntryCount; hide Priced;
    var t := Run(calls, sha);
    GoodListings(t, sha);
    SoldOnce(t.listings, t.frames, t.floor.ledger, t.floor.accounts.Keys, i);
  }

  lemma SoldOnce(listings: seq<Listing>, frames: map<string, Id>, ledger: seq<Entry>, keys: set<Player>, i: Id)
    requires ListingsOk(listings, frames, keys) && SalesOk(listings, ledger) && i < |listings|
    ensures var l := listings[i];
            && SaleOk(l, i, ledger) && (PaidFor(l.status) <==> l.buyer.Some?)
            && (l.buyer.Some? ==> l.buyer.value != l.seller)
  {
    hide Sum;
  }

  // ----- markets -----

  /** Active means bound; a target has at most one active market; no active market is reopenable. */
  lemma MarketsAreBound(calls: seq<Call>, sha: string -> int, m: Id)
    requires CallsOk(calls) && m < |Run(calls, sha).markets|
    ensures var t := Run(calls, sha);
            var v := t.markets[m];
            && (v.active <==> v.target in t.bindings && t.bindings[v.target] == m)
            && !(v.active && v.reopenable)
            && forall n: nat :: n < |t.markets| && t.markets[n].target == v.target ==>
                 v.active && t.markets[n].active ==> n == m
  {
    hide Good; hide BooksOk; hide ShelvesOk;
    GoodMarkets(Run(calls, sha), sha);
  }

  /** Two markets share their book exactly when they trade the same item: type, data and NBT. */
  lemma MarketsShareBooksByItem(calls: seq<Call>, sha: string -> int, m: Id, n: Id)
    requires CallsOk(calls) && m < |Run(calls, sha).markets| && n < |Run(calls, sha).markets|
    ensures var ms := Run(calls, sha).markets;
            ms[m].book == ms[n].book <==> ms[m].item == ms[n].item
  {
    hide Good; hide BindingsOk; hide Fingerprint;
    var t := Run(calls, sha);
    GoodMarkets(t, sha);
    var b, c := t.markets[m].book, t.markets[n].book;
    assert t.books[b].item == t.books[c].item ==> t.books[b].fingerprint == t.books[c].fingerprint;
  }

  /** The text of a book's key determines its item. */
  lemma FingerprintIsInjective(i: Item, j: Item)
    requires Fingerprint(i) == Fingerprint(j)
    ensures i == j
  {
    var it := Decimal.Text(i.data) + ":" + (Decimal.Text(|i.nbt|) + ":" + i.nbt);
    var jt := Decimal.Text(j.data) + ":" + (Decimal.Text(|j.nbt|) + ":" + j.nbt);
    Decimal.NoColon(|i.kind|);
    Decimal.NoColon(|j.kind|);
    Decimal.SplitAtColon(Decimal.Text(|i.kind|), Decimal.Text(|j.kind|), i.kind + ":" + it, j.kind + ":" + jt);
    Decimal.TextIsInjective(|i.kind|, |j.kind|);
    assert i.kind == (i.kind + ":" + it)[..|i.kind|] && j.kind == (j.kind + ":" + jt)[..|j.kind|];
    assert it == (i.kind + ":" + it)[|i.kind| + 1..] && jt == (j.kind + ":" + jt)[|j.kind| + 1..];
    Decimal.NoColon(i.data);
    Decimal.NoColon(j.data);
    Decimal.SplitAtColon(Decimal.Text(i.data), Decimal.Text(j.data), Decimal.Text(|i.nbt|) + ":" + i.nbt,
                         Decimal.Text(|j.nbt|) + ":" + j.nbt);
    Decimal.TextIsInjective(i.data, j.data);
    Decimal.NoColon(|i.nbt|);
    Decimal.NoColon(|j.nbt|);
    Decimal.SplitAtColon(Decimal.Text(|i.nbt|), Decimal.Text(|j.nbt|), i.nbt, j.nbt);
  }

  /** Activation is refused for a collision exactly when a different item's text has the same hash. */
  lemma CollisionsAreReal(calls: seq<Call>, sha: string -> int, target: string, kind: TargetKind, item: Item)
    requires CallsOk(calls)
    ensures var t := Run(calls, sha);
            var r := Activate(t, sha, target, kind, item);
            r == Err(FingerprintCollision) <==>
              && target != "" && item.kind != "" && target !in t.bindings
              && exists b: nat :: b < |t.books| && t.books[b].item != item
                                  && Fingerprint(t.books[b].item) != Fingerprint(item)
                                  && sha(Fingerprint(t.books[b].item)) == sha(Fingerprint(item))
  {
    hide Good; hide Fingerprint; hide Activate; hide BindingsOk; hide ShelvesOk; hide BooksOk; hide Priced;
    var t := Run(calls, sha);
    GoodMarkets(t, sha);
    CollisionIsReal(t, sha, target, kind, item);
  }

  lemma CollisionIsReal(t: Tables, sha: string -> int, target: string, kind: TargetKind, item: Item)
    requires BooksOk(t.books, sha)
    ensures Activate(t, sha, target, kind, item) == Err(FingerprintCollision) <==>
              && target != "" && item.kind != "" && target !in t.bindings
              && exists b: nat :: b < |t.books| && t.books[b].item != item
                                  && Fingerprint(t.books[b].item) != Fingerprint(item)
                                  && sha(Fingerprint(t.books[b].item)) == sha(Fingerprint(item))
  {
    hide Fingerprint; hide FindResumable; hide FindBook;
    var found := FindBook(t.books, sha(Fingerprint(item)), |t.books|);
    if found.Some? && Fingerprint(t.books[found.value].item) == Fingerprint(item) {
      FingerprintIsInjective(t.books[found.value].item, item);
    }
  }

  /** Looking a market's item up finds the market's own book. */
  lemma BookOfItem(t: Tables, sha: string -> int, m: Id)
    requires MarketsOk(t.books, t.markets, t.bindings, sha) && m < |t.markets|
    ensures FindBook(t.books, sha(Fingerprint(t.markets[m].item)), |t.books|) == Some(t.markets[m].book)
    ensures t.markets[m].book < |t.books| && t.books[t.markets[m].book].item == t.markets[m].item
    ensures t.markets[m].target != "" && t.markets[m].item.kind != ""
  {
    hide Fingerprint; hide BindingsOk;
    assert t.books[t.markets[m].book].fingerprint == sha(Fingerprint(t.markets[m].item));
  }

  /** After a close, the market just closed is the one resumable market of its target, kind and book. */
  lemma ClosedIsResumable(markets: seq<Venue>, bindings: map<string, Id>, m: Id)
    requires BindingsOk(markets, bindings) && m < |markets| && markets[m].active
    ensures var now := markets[m := markets[m].(active := false, reopenable := true)];
            FindResumable(now, markets[m].target, markets[m].kind, markets[m].book, |now|) == Some(m)
  {
    var now := markets[m := markets[m].(active := false, reopenable := true)];
    var v := now[m];
    var r := FindResumable(now, v.target, v.kind, v.book, |now|);
    hide FindResumable;
    assert Resumable(now[m], v.target, v.kind, v.book);
    assert !Retired(markets[m]);
    if r.Some? {
      assert Resumable(now[r.value], v.target, v.kind, v.book);
      assert !Retired(markets[r.value]);
    }
  }

  /** Activating a live target is refused; closing a market and activating its item again restores the database. */
  lemma ReopeningResumes(calls: seq<Call>, sha: string -> int, m: Id)
    requires CallsOk(calls) && m < |Run(calls, sha).markets|
    requires Run(calls, sha).markets[m].active
    ensures var t := Run(calls, sha);
            var v := t.markets[m];
            && Activate(t, sha, v.target, v.kind, v.item) == Err(TargetBound)
            && Close(t, m).Ok?
            && Activate(Close(t, m).value, sha, v.target, v.kind, v.item) == Ok((t, m))
  {
    hide Good; hide Fingerprint; hide Priced;
    var t := Run(calls, sha);
    GoodMarkets(t, sha);
    ActiveMarketReopens(t, sha, m);
  }

  lemma ActiveMarketReopens(t: Tables, sha: string -> int, m: Id)
    requires MarketsOk(t.books, t.markets, t.bindings, sha) && m < |t.markets| && t.markets[m].active
    ensures var v := t.markets[m];
            && Activate(t, sha, v.target, v.kind, v.item) == Err(TargetBound)
            && Close(t, m).Ok?
            && Activate(Close(t, m).value, sha, v.target, v.kind, v.item) == Ok((t, m))
  {
    hide Fingerprint; hide FindBook; hide FindResumable; hide ShelvesOk; hide BooksOk; hide OneLiveEach;
    var v := t.markets[m];
    var u := Close(t, m).value;
    BookOfItem(t, sha, m);
    ClosedIsResumable(t.markets, t.bindings, m);
    assert u.markets[m := v] == t.markets;
    assert u.bindings[v.target := m] == t.bindings;
  }
}
