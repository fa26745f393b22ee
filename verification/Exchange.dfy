/**
 The whole exchange database and every public operation of the service on it. Each
 operation is one SQL transaction: `Ok` carries the committed tables, `Err` is a rollback.
 */
module Exchange {
  import opened Sums
  import opened Domain
  import opened Matching
  import Decimal

  datatype ClaimStatus = ClaimPrepared | ClaimApplied | ClaimCanceled

  /** A row of `exchange_delivery_claims`. */
  datatype Claim = Claim(delivery: Id, owner: Player, quantity: int, applied: int, status: ClaimStatus, cleaned: bool)

  datatype EscrowStatus = EscrowPrepared | EscrowTagged | EscrowOrdered | EscrowCanceled

  /** A row of `exchange_sell_escrows`. */
  datatype Escrow = Escrow(market: Id, owner: Player, name: string, kind: OrderType, price: int, requested: int,
                           tagged: int, receipts: int, status: EscrowStatus, order: Option<Id>, cleaned: bool)

  datatype Direction = Deposit | Withdraw
  datatype TransferStatus = TransferPrepared | ExternalApplied | TransferCompleted | TransferFailed | TransferBlocked

  /** A row of `exchange_economy_transfers`. */
  datatype Transfer = Transfer(owner: Player, name: string, direction: Direction, cents: int, units: int,
                               status: TransferStatus, before: Option<int>, after: Option<int>)

  datatype ListingStatus = ListingActive | ListingPaid | ListingDropped | ListingClaimed | ListingCanceled

  /** A row of `exchange_frame_listings`. */
  datatype Listing = Listing(target: string, seller: Player, price: int, item: Item, status: ListingStatus,
                             buyer: Option<Player>)

  datatype Tables = Tables(floor: Floor, books: seq<Book>, markets: seq<Venue>, bindings: map<string, Id>,
                           claims: seq<Claim>, escrows: seq<Escrow>, transfers: seq<Transfer>,
                           listings: seq<Listing>, frames: map<string, Id>)

  function Empty(): Tables
  {
    Tables(Floor(map[], [], [], [], []), [], [], map[], [], [], [], [], map[])
  }

  // ----- accounts -----

  /** `ensureAccount`: opens the account with the initial balance when it is new. */
  function EnsureAccount(t: Tables, cfg: Config, p: Player): Result<Tables>
  {
    if p == "" then Err(IdentityIncomplete)
    else if p in t.floor.accounts then Ok(t)
    else
      Ok(t.(floor := t.floor.(accounts := t.floor.accounts[p := cfg.initialBalance],
                              ledger := t.floor.ledger + [Entry(p, cfg.initialBalance, AccountOpened, None)])))
  }

  /** The second transaction of `addBalance`. */
  function AdjustBalance(t: Tables, p: Player, delta: int): Result<Tables>
  {
    var current :- Balance(t.floor, p);
    if delta < -current then Err(BalanceNegative)
    else if delta > 0 && current > INT64_MAX - delta then Err(BalanceOverflow)
    else Ok(t.(floor := Move(t.floor, p, delta, AdminAdjustment, None)))
  }

  // ----- markets -----

  /** The text whose SHA-256 is a book's unique key. */
  function Fingerprint(i: Item): string
  {
    Decimal.Text(|i.kind|) + ":" + (i.kind + ":" + (Decimal.Text(i.data) + ":" + (Decimal.Text(|i.nbt|) + ":" + i.nbt)))
  }

  /** The book with a given key among the first `n`, if any. */
  function FindBook(books: seq<Book>, key: int, n: nat): (r: Option<Id>)
    requires n <= |books|
    ensures r.Some? ==> r.value < n && books[r.value].fingerprint == key
    ensures r.None? ==> forall i :: 0 <= i < n ==> books[i].fingerprint != key
  {
    if n == 0 then None
    else if books[n - 1].fingerprint == key then Some(n - 1)
    else FindBook(books, key, n - 1)
  }

  predicate Resumable(v: Venue, target: string, kind: TargetKind, book: Id)
  {
    v.target == target && v.kind == kind && !v.active && v.reopenable && v.book == book
  }

  /** The newest resumable generation among the first `n` markets. */
  function FindResumable(markets: seq<Venue>, target: string, kind: TargetKind, book: Id, n: nat): (r: Option<Id>)
    requires n <= |markets|
    ensures r.Some? ==> r.value < n && Resumable(markets[r.value], target, kind, book)
    ensures r.Some? ==> forall i :: r.value < i < n ==> !Resumable(markets[i], target, kind, book)
    ensures r.None? ==> forall i :: 0 <= i < n ==> !Resumable(markets[i], target, kind, book)
  {
    if n == 0 then None
    else if Resumable(markets[n - 1], target, kind, book) then Some(n - 1)
    else FindResumable(markets, target, kind, book, n - 1)
  }

  /** `activateMarket`: finds or creates the item's book, then resumes or creates the market. */
  function Activate(t: Tables, sha: string -> int, target: string, kind: TargetKind, item: Item): Result<(Tables, Id)>
  {
    if target == "" || item.kind == "" then Err(IdentityIncomplete)
    else if target in t.bindings then Err(TargetBound)
    else
      var key := sha(Fingerprint(item));
      var found := FindBook(t.books, key, |t.books|);
      var books := if found.Some? then t.books else t.books + [Book(item, key)];
      var book := if found.Some? then found.value else |t.books|;
      if books[book].item != item then Err(FingerprintCollision)
      else
        var resumed := FindResumable(t.markets, target, kind, book, |t.markets|);
        if resumed.Some? then
          var m := resumed.value;
          Ok((t.(books := books, markets := t.markets[m := t.markets[m].(active := true, reopenable := false)],
                 bindings := t.bindings[target := m]), m))
        else
          Ok((t.(books := books, markets := t.markets + [Venue(book, target, kind, item, true, false)],
                 bindings := t.bindings[target := |t.markets|]), |t.markets|))
  }

  /** Removes the binding of a target when it points at this market. */
  function Unbind(bindings: map<string, Id>, target: string, m: Id): map<string, Id>
  {
    if target in bindings && bindings[target] == m then bindings - {target} else bindings
  }

  /** All bindings but those that point at `m`. */
  function UnbindAll(bindings: map<string, Id>, m: Id): map<string, Id>
  {
    map k | k in bindings && bindings[k] != m :: bindings[k]
  }

  /** `closeMarket`: pauses a market and keeps its orders. */
  function Close(t: Tables, m: Id): Result<Tables>
  {
    if m >= |t.markets| then Err(MarketMissing)
    else
      var v := t.markets[m];
      if !v.active then Ok(t.(bindings := UnbindAll(t.bindings, m)))
      else if !(v.target in t.bindings && t.bindings[v.target] == m) then Err(BindingMissing)
      else Ok(t.(bindings := Unbind(t.bindings, v.target, m),
                 markets := t.markets[m := v.(active := false, reopenable := true)]))
  }

  /** `retireMarket`: settles every order placed through a market and closes it for good. */
  function Retire(t: Tables, m: Id): Result<Tables>
  {
    if m >= |t.markets| then Err(MarketMissing)
    else
      var v := t.markets[m];
      var floor :- ReleaseAll(t.floor, RestingOf(t.floor.orders, m, |t.floor.orders|));
      if v.active && !(v.target in t.bindings && t.bindings[v.target] == m) then Err(BindingMissing)
      else Ok(t.(floor := floor, bindings := Unbind(t.bindings, v.target, m),
                 markets := t.markets[m := v.(active := false, reopenable := false)]))
  }

  // ----- orders -----

  /** `validateRequest`. */
  function Validate(cfg: Config, req: Request): (e: Option<Error>)
    ensures e.None? <==>
              && req.player != "" && req.name != "" && 0 < req.quantity <= cfg.maxOrderQuantity
              && (req.kind.Limit? ==> 0 < req.price && req.price * req.quantity <= INT64_MAX)
  {
    if req.player == "" || req.name == "" then Some(IdentityIncomplete)
    else if req.quantity <= 0 || req.quantity > cfg.maxOrderQuantity then Some(QuantityRange)
    else if req.kind.Limit? && req.price <= 0 then Some(PriceNotPositive)
    else if req.kind.Limit? && Product(req.price, req.quantity).Err? then Some(ProductTooLarge)
    else None
  }

  /** `placeBuy` or `placeSell`, as one transaction. */
  function Place(t: Tables, req: Request): Result<(Tables, Execution)>
    requires PricedRows(t.floor) && (req.kind.Limit? ==> req.price > 0)
  {
    var r :- if req.side.Buy? then PlaceBuy(t.floor, t.markets, req) else PlaceSell(t.floor, t.markets, req);
    Ok((t.(floor := r.0), r.1))
  }

  function CancelOrder(t: Tables, id: Id, p: Player, administrator: bool): Result<Tables>
  {
    var floor :- Cancel(t.floor, id, p, administrator);
    Ok(t.(floor := floor))
  }

  // ----- delivery claims -----

  function PrepareClaim(t: Tables, d: Id, p: Player, quantity: int): Result<(Tables, Id)>
  {
    if quantity <= 0 || p == "" then Err(IdentityIncomplete)
    else if d >= |t.floor.deliveries| then Err(DeliveryMissing)
    else
      var row := t.floor.deliveries[d];
      var available := row.quantity - row.claimed - row.reserved;
      if row.owner != p then Err(NotOwner)
      else if available <= 0 then Err(NothingToClaim)
      else
        var prepared := Min(quantity, available);
        Ok((t.(claims := t.claims + [Claim(d, p, prepared, 0, ClaimPrepared, false)],
               floor := t.floor.(deliveries := t.floor.deliveries[d := row.(reserved := row.reserved + prepared)])),
            |t.claims|))
  }

  function CompleteClaim(t: Tables, c: Id, delivered: int): Result<Tables>
  {
    if delivered < 0 then Err(NegativeAmount)
    else if c >= |t.claims| then Err(ClaimMissing)
    else
      var claim := t.claims[c];
      if !claim.status.ClaimPrepared? then
        (if (claim.status.ClaimApplied? && claim.applied == delivered)
            || (claim.status.ClaimCanceled? && delivered == 0) then Ok(t)
         else Err(ClaimCompletedDifferently))
      else if delivered > claim.quantity then Err(ClaimTooLarge)
      else if claim.delivery >= |t.floor.deliveries| then Err(DeliveryMissing)
      else
        var row := t.floor.deliveries[claim.delivery];
        if row.reserved < claim.quantity || row.claimed + delivered > row.quantity then Err(ReservationInvariant)
        else
          Ok(t.(floor := t.floor.(deliveries := t.floor.deliveries[claim.delivery :=
                  row.(claimed := row.claimed + delivered, reserved := row.reserved - claim.quantity)]),
                claims := t.claims[c :=
                  if delivered == 0 then claim.(applied := 0, status := ClaimCanceled, cleaned := true)
                  else claim.(applied := delivered, status := ClaimApplied)]))
  }

  function CleanClaim(t: Tables, c: Id): Result<Tables>
  {
    if c >= |t.claims| || !t.claims[c].status.ClaimApplied? then Err(ClaimNotApplied)
    else Ok(t.(claims := t.claims[c := t.claims[c].(cleaned := true)]))
  }

  // ----- sell escrows -----

  /** The second transaction of `prepareSellEscrow`. */
  function PrepareEscrow(t: Tables, req: Request): Result<(Tables, Id)>
  {
    if req.market >= |t.markets| || !t.markets[req.market].active then Err(MarketInactive)
    else
      Ok((t.(escrows := t.escrows
               + [Escrow(req.market, req.player, req.name, req.kind, if req.kind.Limit? then req.price else 0,
                         req.quantity, 0, 0, EscrowPrepared, None, false)]),
          |t.escrows|))
  }

  function MarkTagged(t: Tables, e: Id, tagged: int, receipts: int): Result<Tables>
  {
    if tagged <= 0 || receipts <= 0 then Err(QuantityRange)
    else if e >= |t.escrows| then Err(EscrowMissing)
    else
      var row := t.escrows[e];
      if tagged < row.requested then Err(EscrowTooSmall)
      else if row.status.EscrowTagged? && row.tagged == tagged && row.receipts == receipts then Ok(t)
      else if !row.status.EscrowPrepared? then Err(EscrowNotPrepared)
      else Ok(t.(escrows := t.escrows[e := row.(tagged := tagged, receipts := receipts, status := EscrowTagged)]))
  }

  function EscrowRequest(row: Escrow): Request
  {
    Request(row.market, row.owner, row.name, Sell, row.kind, row.price, row.requested)
  }

  /** Units and value traded by a sell order, as the repeat branch sums them up. */
  function SoldUnits(id: Id): Trade -> int { (t: Trade) => if t.sellOrder == id then t.quantity else 0 }
  function SoldValue(id: Id): Trade -> int { (t: Trade) => if t.sellOrder == id then t.price * t.quantity else 0 }

  /** `executeSellEscrow`: turns a tagged escrow into its order, or reports the order it already is. */
  function ExecuteEscrow(t: Tables, e: Id): Result<(Tables, Execution)>
    requires PricedRows(t.floor)
    requires forall i :: 0 <= i < |t.escrows| && t.escrows[i].kind.Limit? ==> t.escrows[i].price > 0
  {
    if e >= |t.escrows| then Err(EscrowMissing)
    else
      var row := t.escrows[e];
      if row.status.EscrowOrdered? then
        if row.order.None? || row.order.value >= |t.floor.orders| then Err(OrderMissing)
        else
          var id := row.order.value;
          var balance :- Balance(t.floor, row.owner);
          Ok((t, Execution(id, t.floor.orders[id].original, Sum(t.floor.trades, SoldUnits(id)),
                           t.floor.orders[id].remaining, Sum(t.floor.trades, SoldValue(id)), balance)))
      else if !row.status.EscrowTagged? then Err(EscrowNotTagged)
      else
        var r :- PlaceSell(t.floor, t.markets, EscrowRequest(row));
        var floor := AddDelivery(r.0, row.owner, row.market, row.tagged - row.requested, EscrowExcess);
        Ok((t.(floor := floor, escrows := t.escrows[e := row.(status := EscrowOrdered, order := Some(r.1.order))]),
            r.1))
  }

  function CancelEscrow(t: Tables, e: Id): Result<Tables>
  {
    if e >= |t.escrows| then Err(EscrowMissing)
    else if t.escrows[e].status.EscrowCanceled? then Ok(t)
    else if !t.escrows[e].status.EscrowPrepared? then Err(EscrowNotPrepared)
    else Ok(t.(escrows := t.escrows[e := t.escrows[e].(status := EscrowCanceled, cleaned := true)]))
  }

  function CleanEscrow(t: Tables, e: Id): Result<Tables>
  {
    if e >= |t.escrows| || !t.escrows[e].status.EscrowOrdered? then Err(EscrowNotOrdered)
    else Ok(t.(escrows := t.escrows[e := t.escrows[e].(cleaned := true)]))
  }

  // ----- economy transfers -----

  /** The checks `prepareEconomyTransfer` makes before it opens the account. */
  function TransferRefused(p: Player, name: string, cents: int, units: int): (e: Option<Error>)
    ensures e.None? <==> p != "" && name != "" && 0 < cents && 0 < units
  {
    if p == "" || name == "" then Some(IdentityIncomplete)
    else if cents <= 0 || units <= 0 then Some(NegativeAmount)
    else None
  }

  /** The second transaction of `prepareEconomyTransfer`: a withdrawal reserves its cents at once. */
  function PrepareTransfer(t: Tables, p: Player, name: string, direction: Direction, cents: int, units: int,
                           before: Option<int>): Result<(Tables, Id)>
  {
    var row := Transfer(p, name, direction, cents, units, TransferPrepared, before, None);
    var floor :- if direction.Withdraw? then
                   Debit(t.floor, p, cents, UmoneyWithdrawReserved, Some(|t.transfers|))
                 else Ok(t.floor);
    Ok((t.(floor := floor, transfers := t.transfers + [row]), |t.transfers|))
  }

  function MarkExternalApplied(t: Tables, i: Id, balance: int): Result<Tables>
  {
    if i >= |t.transfers| then Err(TransferMissing)
    else
      var row := t.transfers[i];
      if row.status.TransferFailed? || row.status.TransferBlocked? then Err(TransferClosed)
      else if row.status.TransferPrepared? then
        Ok(t.(transfers := t.transfers[i := row.(status := ExternalApplied, after := Some(balance))]))
      else Ok(t)
  }

  function CompleteTransfer(t: Tables, i: Id): Result<Tables>
  {
    if i >= |t.transfers| then Err(TransferMissing)
    else
      var row := t.transfers[i];
      if row.status.TransferFailed? then Err(TransferClosed)
      else if row.status.TransferCompleted? then (var _ :- Balance(t.floor, row.owner); Ok(t))
      else if !row.status.ExternalApplied? then Err(TransferNotApplied)
      else
        var floor :- if row.direction.Deposit? then Credit(t.floor, row.owner, row.cents, UmoneyDeposit, Some(i))
                     else Ok(t.floor);
        Ok(t.(floor := floor, transfers := t.transfers[i := row.(status := TransferCompleted)]))
  }

  function FailTransfer(t: Tables, i: Id): Result<Tables>
  {
    if i >= |t.transfers| then Err(TransferMissing)
    else
      var row := t.transfers[i];
      if row.status.ExternalApplied? || row.status.TransferCompleted? || row.status.TransferBlocked? then
        Err(TransferApplied)
      else if row.status.TransferPrepared? then
        var floor :- if row.direction.Withdraw? then
                       Credit(t.floor, row.owner, row.cents, UmoneyWithdrawRefund, Some(i))
                     else Ok(t.floor);
        Ok(t.(floor := floor, transfers := t.transfers[i := row.(status := TransferFailed)]))
      else (var _ :- Balance(t.floor, row.owner); Ok(t))
  }

  function BlockTransfer(t: Tables, i: Id): Result<Tables>
  {
    if i >= |t.transfers| || !t.transfers[i].status.TransferPrepared? then Err(TransferMissing)
    else Ok(t.(transfers := t.transfers[i := t.transfers[i].(status := TransferBlocked)]))
  }

  // ----- frame listings -----

  /** The checks `upsertFrameListing` makes before it opens the seller's account. */
  predicate ListingIncomplete(l: Listing)
  {
    l.target == "" || l.seller == "" || l.price <= 0 || l.item.kind == ""
  }

  /** The second transaction of `upsertFrameListing`: replaces an active listing or binds a new one. */
  function Upsert(t: Tables, l: Listing, administrator: bool): Result<(Tables, Id)>
  {
    var added := l.(status := ListingActive, buyer := None);
    if l.target in t.frames && t.frames[l.target] < |t.listings| then
      var bound := t.frames[l.target];
      var current := t.listings[bound];
      if !current.status.ListingActive? then Err(ListingSettling)
      else if !administrator && current.seller != l.seller then Err(NotOwner)
      else
        Ok((t.(listings := t.listings[bound := current.(status := ListingCanceled)] + [added],
               frames := UnbindAll(t.frames, bound)[l.target := |t.listings|]), |t.listings|))
    else
      Ok((t.(listings := t.listings + [added], frames := t.frames[l.target := |t.listings|]), |t.listings|))
  }

  function CancelListing(t: Tables, id: Id, p: Player, administrator: bool): Result<Tables>
  {
    if id >= |t.listings| then Err(ListingMissing)
    else
      var l := t.listings[id];
      if l.status.ListingCanceled? then Ok(t)
      else if !l.status.ListingActive? then Err(ListingSettling)
      else if !administrator && l.seller != p then Err(NotOwner)
      else Ok(t.(listings := t.listings[id := l.(status := ListingCanceled)], frames := UnbindAll(t.frames, id)))
  }

  /** The second transaction of `purchaseFrameListing`. */
  function Purchase(t: Tables, id: Id, buyer: Player, expected: int): Result<Tables>
  {
    if id >= |t.listings| then Err(ListingMissing)
    else
      var l := t.listings[id];
      if !l.status.ListingActive? then Err(ListingUnavailable)
      else if l.price != expected then Err(PriceChanged)
      else if l.seller == buyer then Err(SelfPurchase)
      else if !(l.target in t.frames && t.frames[l.target] == id) then Err(ListingUnbound)
      else if buyer !in t.floor.accounts || l.seller !in t.floor.accounts then Err(AccountMissing)
      else
        var paid :- Debit(t.floor, buyer, l.price, FramePurchase, Some(id));
        var sold :- Credit(paid, l.seller, l.price, FrameSale, Some(id));
        Ok(t.(floor := sold, listings := t.listings[id := l.(status := ListingPaid, buyer := Some(buyer))]))
  }

  function MarkDropped(t: Tables, id: Id): Result<Tables>
  {
    if id >= |t.listings| then Err(ListingMissing)
    else
      var l := t.listings[id];
      if l.status.ListingDropped? || l.status.ListingClaimed? then Ok(t)
      else if !l.status.ListingPaid? then Err(NotAwaitingPickup)
      else Ok(t.(listings := t.listings[id := l.(status := ListingDropped)]))
  }

  function CompletePickup(t: Tables, id: Id): Result<Tables>
  {
    if id >= |t.listings| then Err(ListingMissing)
    else
      var l := t.listings[id];
      if l.status.ListingClaimed? then Ok(t)
      else if !l.status.ListingPaid? && !l.status.ListingDropped? then Err(NotAwaitingPickup)
      else Ok(t.(listings := t.listings[id := l.(status := ListingClaimed)], frames := UnbindAll(t.frames, id)))
  }

  // ----- every public mutation, as one step -----

  datatype Action =
    | DoEnsureAccount(p: Player)
    | DoAddBalance(p: Player, delta: int)
    | DoActivate(target: string, kind: TargetKind, item: Item)
    | DoClose(m: Id)
    | DoRetire(m: Id)
    | DoPlace(req: Request)
    | DoCancel(id: Id, p: Player, administrator: bool)
    | DoPrepareClaim(d: Id, p: Player, quantity: int)
    | DoCompleteClaim(c: Id, quantity: int)
    | DoCleanClaim(c: Id)
    | DoPrepareEscrow(req: Request)
    | DoMarkTagged(e: Id, tagged: int, receipts: int)
    | DoExecuteEscrow(e: Id)
    | DoCancelEscrow(e: Id)
    | DoCleanEscrow(e: Id)
    | DoPrepareTransfer(p: Player, name: string, direction: Direction, cents: int, units: int, before: Option<int>)
    | DoMarkExternalApplied(i: Id, balance: int)
    | DoCompleteTransfer(i: Id)
    | DoFailTransfer(i: Id)
    | DoBlockTransfer(i: Id)
    | DoUpsert(l: Listing, administrator: bool)
    | DoCancelListing(id: Id, p: Player, administrator: bool)
    | DoPurchase(id: Id, buyer: Player, expected: int)
    | DoMarkDropped(id: Id)
    | DoCompletePickup(id: Id)

  /** The tables a transaction leaves: its own when it commits, the old ones when it throws. */
  function After(t: Tables, r: Result<Tables>): Tables
  {
    if r.Ok? then r.value else t
  }

  function AfterPair<X>(t: Tables, r: Result<(Tables, X)>): Tables
  {
    if r.Ok? then r.value.0 else t
  }

  /** Rows the matching engine can divide by, and escrows it can turn into orders. */
  predicate Priced(t: Tables)
  {
    && PricedRows(t.floor)
    && forall i :: 0 <= i < |t.escrows| && t.escrows[i].kind.Limit? ==> t.escrows[i].price > 0
  }

  /** The player whose account an operation opens in a transaction of its own before anything else. */
  function Opens(cfg: Config, a: Action): Option<Player>
  {
    match a
    case DoEnsureAccount(p) => Some(p)
    case DoAddBalance(p, _) => Some(p)
    case DoPlace(req) => if Validate(cfg, req).None? then Some(req.player) else None
    case DoPrepareEscrow(req) => if Validate(cfg, req).None? && req.side.Sell? then Some(req.player) else None
    case DoPrepareTransfer(p, name, _, cents, units, _) =>
      if TransferRefused(p, name, cents, units).None? then Some(p) else None
    case DoUpsert(l, _) => if ListingIncomplete(l) then None else Some(l.seller)
    case DoPurchase(_, buyer, expected) => if buyer == "" || expected <= 0 then None else Some(buyer)
    case _ => None
  }

  function Opened(t: Tables, cfg: Config, a: Action): (u: Tables)
    ensures u == t.(floor := u.floor) && u.floor == t.floor.(accounts := u.floor.accounts, ledger := u.floor.ledger)
  {
    match Opens(cfg, a)
    case None => t
    case Some(p) => After(t, EnsureAccount(t, cfg, p))
  }

  /** The main transaction of an operation, on tables in which its player has an account. */
  function Main(t: Tables, cfg: Config, sha: string -> int, a: Action): Tables
    requires Priced(t)
  {
    match a
    case DoEnsureAccount(_) => t
    case DoAddBalance(p, delta) => if p == "" then t else After(t, AdjustBalance(t, p, delta))
    case DoActivate(target, kind, item) => AfterPair(t, Activate(t, sha, target, kind, item))
    case DoClose(m) => After(t, Close(t, m))
    case DoRetire(m) => After(t, Retire(t, m))
    case DoPlace(req) => if Validate(cfg, req).None? then AfterPair(t, Place(t, req)) else t
    case DoCancel(id, p, administrator) => After(t, CancelOrder(t, id, p, administrator))
    case DoPrepareClaim(d, p, quantity) => AfterPair(t, PrepareClaim(t, d, p, quantity))
    case DoCompleteClaim(c, quantity) => After(t, CompleteClaim(t, c, quantity))
    case DoCleanClaim(c) => After(t, CleanClaim(t, c))
    case DoPrepareEscrow(req) =>
      if Validate(cfg, req).None? && req.side.Sell? then AfterPair(t, PrepareEscrow(t, req)) else t
    case DoMarkTagged(e, tagged, receipts) => After(t, MarkTagged(t, e, tagged, receipts))
    case DoExecuteEscrow(e) => AfterPair(t, ExecuteEscrow(t, e))
    case DoCancelEscrow(e) => After(t, CancelEscrow(t, e))
    case DoCleanEscrow(e) => After(t, CleanEscrow(t, e))
    case DoPrepareTransfer(p, name, direction, cents, units, before) =>
      if TransferRefused(p, name, cents, units).None? then
        AfterPair(t, PrepareTransfer(t, p, name, direction, cents, units, before))
      else t
    case DoMarkExternalApplied(i, balance) => After(t, MarkExternalApplied(t, i, balance))
    case DoCompleteTransfer(i) => After(t, CompleteTransfer(t, i))
    case DoFailTransfer(i) => After(t, FailTransfer(t, i))
    case DoBlockTransfer(i) => After(t, BlockTransfer(t, i))
    case DoUpsert(l, administrator) => if ListingIncomplete(l) then t else AfterPair(t, Upsert(t, l, administrator))
    case DoCancelListing(id, p, administrator) => After(t, CancelListing(t, id, p, administrator))
    case DoPurchase(id, buyer, expected) =>
      if buyer == "" || expected <= 0 then t else After(t, Purchase(t, id, buyer, expected))
    case DoMarkDropped(id) => After(t, MarkDropped(t, id))
    case DoCompletePickup(id) => After(t, CompletePickup(t, id))
  }

  /** One call of the service, from outside: tables before, tables after. */
  function Step(t: Tables, cfg: Config, sha: string -> int, a: Action): Tables
    requires Priced(t)
  {
    Main(Opened(t, cfg, a), cfg, sha, a)
  }
}
