/**
 What each call on accounts, markets, claims, escrows, transfers and frame listings writes, said
 of the rows alone, and exactly when it is refused.
 */
module Records {
  import opened Sums
  import opened Domain
  import opened Matching
  import opened Settlement
  import opened MatchingLoops
  import opened Placement
  import opened Proceeds
  import opened Exchange
  import opened Invariants
  import opened StepsMoney
  import opened StepsTrade
  import opened Solvency
  import Booking
  import Guarantees

  /** One balance moved, with one ledger entry, and nothing else on the floor. */
  predicate OnePosting(f: Floor, g: Floor, e: Entry)
  {
    && e.player in f.accounts
    && g == f.(accounts := f.accounts[e.player := f.accounts[e.player] + e.delta], ledger := f.ledger + [e])
  }

  // ----- accounts -----

  /** The account a player has, or gets by the first call on it. */
  function BalanceToBe(f: Floor, cfg: Config, p: Player): int
  {
    if p in f.accounts then f.accounts[p] else cfg.initialBalance
  }

  function OpeningEntry(f: Floor, cfg: Config, p: Player): seq<Entry>
  {
    if p in f.accounts then [] else [Entry(p, cfg.initialBalance, AccountOpened, None)]
  }

  /** A first call opens the account with the initial balance; any later one finds it. */
  lemma AccountOpens(t: Tables, cfg: Config, p: Player)
    requires p != ""
    ensures EnsureAccount(t, cfg, p)
         == Ok(t.(floor := t.floor.(accounts := t.floor.accounts[p := BalanceToBe(t.floor, cfg, p)],
                                    ledger := t.floor.ledger + OpeningEntry(t.floor, cfg, p))))
  {
    var f := t.floor;
    if p in f.accounts { assert f.accounts[p := f.accounts[p]] == f.accounts && f.ledger + [] == f.ledger; }
  }

  lemma AdjustedWithin(u: Tables, p: Player, delta: int, b: int)
    requires p in u.floor.accounts && u.floor.accounts[p] == b && 0 <= b <= INT64_MAX
    ensures After(u, AdjustBalance(u, p, delta))
         == if 0 <= b + delta <= INT64_MAX then
              u.(floor := u.floor.(accounts := u.floor.accounts[p := b + delta],
                                   ledger := u.floor.ledger + [Entry(p, delta, AdminAdjustment, None)]))
            else u
  {
  }

  /** `addbalance` for a player with or without an account: the balance moves by the amount, or stays if it must. */
  lemma AddBalanceAdds(t: Tables, cfg: Config, sha: string -> int, p: Player, delta: int)
    requires Good(t, sha) && Priced(t) && ConfigOk(cfg) && p != ""
    ensures var b := BalanceToBe(t.floor, cfg, p);
            var fits := 0 <= b + delta <= INT64_MAX;
            Step(t, cfg, sha, DoAddBalance(p, delta))
            == t.(floor := t.floor.(
                    accounts := t.floor.accounts[p := if fits then b + delta else b],
                    ledger := t.floor.ledger + OpeningEntry(t.floor, cfg, p)
                    + (if fits then [Entry(p, delta, AdminAdjustment, None)] else [])))
  {
    hide Good; hide Priced; hide EnsureAccount; hide AdjustBalance; hide OpeningEntry; hide BankOk; hide CashOk;
    hide ItemsOk; hide TransfersOk; hide Sound; hide ListingsOk; hide SalesOk;
    var b := BalanceToBe(t.floor, cfg, p);
    GoodMoney(t, sha);
    if p in t.floor.accounts { InRange(t.floor, p); }
    AccountOpens(t, cfg, p);
    var u := EnsureAccount(t, cfg, p).value;
    AdjustedWithin(u, p, delta, b);
    assert u.floor.accounts[p := b + delta] == t.floor.accounts[p := b + delta];
    assert t.floor.ledger + OpeningEntry(t.floor, cfg, p) + [] == u.floor.ledger;
  }

  // ----- markets -----

  /** A market of this point and item that may trade again. */
  predicate Live(v: Venue, target: string, kind: TargetKind, item: Item)
  {
    v.target == target && v.kind == kind && v.item == item && !Retired(v)
  }

  /** Markets of one item share its book. */
  lemma ItemFindsBook(books: seq<Book>, markets: seq<Venue>, sha: string -> int, item: Item)
    requires BooksOk(books, sha) && ShelvesOk(books, markets)
    ensures match FindBook(books, sha(Fingerprint(item)), |books|)
            case Some(b) => books[b].item == item ==>
                              forall m: nat :: m < |markets| ==> (markets[m].book == b <==> markets[m].item == item)
            case None => (forall b: nat :: b < |books| ==> books[b].item != item)
                         && forall m: nat :: m < |markets| ==> markets[m].item != item
  {
    hide Fingerprint; hide FindBook;
    var r := FindBook(books, sha(Fingerprint(item)), |books|);
    forall m: nat | m < |markets| && r.Some? && books[r.value].item == item
      ensures markets[m].book == r.value <==> markets[m].item == item
    {
      assert books[markets[m].book].fingerprint == sha(Fingerprint(books[markets[m].book].item));
    }
  }

  /**
   Activating a free target resumes the one market of that point and item that may trade again, or
   else adds one; either way the target is bound to an active market with exactly these terms, in the
   book of its item, and no other market changes.
   */
  lemma ActivationOpens(t: Tables, sha: string -> int, target: string, kind: TargetKind, item: Item)
    requires Good(t, sha)
    ensures match Activate(t, sha, target, kind, item)
            case Err(e) =>
              if target == "" || item.kind == "" then e == IdentityIncomplete
              else if target in t.bindings then e == TargetBound
              else e == FingerprintCollision && forall b: nat :: b < |t.books| ==> t.books[b].item != item
            case Ok((u, m)) =>
              && target != "" && item.kind != "" && target !in t.bindings
              && u == t.(books := u.books, markets := u.markets, bindings := t.bindings[target := m])
              && m < |u.markets| && u.markets[m] == Venue(u.markets[m].book, target, kind, item, true, false)
              && u.markets[m].book < |u.books| && u.books[u.markets[m].book].item == item
              && u.books == (if exists b: nat :: b < |t.books| && t.books[b].item == item then t.books
                             else t.books + [Book(item, sha(Fingerprint(item)))])
              && (forall i: nat :: i < |t.markets| && i != m ==> i < |u.markets| && u.markets[i] == t.markets[i])
              && |u.markets| == (if m < |t.markets| then |t.markets| else |t.markets| + 1)
              && if exists i: nat :: i < |t.markets| && Live(t.markets[i], target, kind, item)
                 then m < |t.markets| && Live(t.markets[m], target, kind, item) else m == |t.markets|
  {
    hide Good; hide Fingerprint; hide FindBook; hide FindResumable; hide OneLiveEach;
    GoodMarkets(t, sha);
    ItemFindsBook(t.books, t.markets, sha, item);
    var r := Activate(t, sha, target, kind, item);
    hide BooksOk;
    if r.Ok? {
      var found := FindBook(t.books, sha(Fingerprint(item)), |t.books|);
      var book := if found.Some? then found.value else |t.books|;
      forall i: nat | i < |t.markets|
        ensures Live(t.markets[i], target, kind, item) <==> Resumable(t.markets[i], target, kind, book)
      {
        assert t.markets[i].book < |t.books|;
      }
    }
  }

  // ----- delivery claims -----

  /**
   The owner of a delivery with units left to promise gets a claim on as many as asked for, or on
   all that are left if that is less; they count as reserved from then on.
   */
  lemma ClaimReserves(t: Tables, d: Id, p: Player, quantity: int, sha: string -> int)
    requires Good(t, sha)
    ensures match PrepareClaim(t, d, p, quantity)
            case Err(e) =>
              if quantity <= 0 || p == "" then e == IdentityIncomplete
              else if d >= |t.floor.deliveries| then e == DeliveryMissing
              else
                var row := t.floor.deliveries[d];
                if row.owner != p then e == NotOwner
                else e == NothingToClaim && row.claimed + row.reserved == row.quantity
            case Ok((u, c)) =>
              && 0 < quantity && p != "" && d < |t.floor.deliveries| && c == |t.claims| && |u.claims| == c + 1
              && var row, n := t.floor.deliveries[d], u.claims[c].quantity;
              && row.owner == p && row.claimed + row.reserved < row.quantity
              && 0 < n <= quantity && row.claimed + row.reserved + n <= row.quantity
              && (n < quantity ==> row.claimed + row.reserved + n == row.quantity)
              && u == t.(claims := t.claims + [Claim(d, p, n, 0, ClaimPrepared, false)],
                         floor := t.floor.(deliveries := t.floor.deliveries[d := row.(reserved := row.reserved + n)]))
  {
    hide Good; hide ClaimsOk;
    GoodClaims(t, sha);
    if d < |t.floor.deliveries| { DeliveryFits(t.claims, t.floor.deliveries, d); }
  }

  lemma DeliveryFits(claims: seq<Claim>, deliveries: seq<Delivery>, d: Id)
    requires ClaimsOk(claims, deliveries) && d < |deliveries|
    ensures deliveries[d].claimed + deliveries[d].reserved <= deliveries[d].quantity
  {
    hide Sum;
    assert DeliveryOk(claims, deliveries[d], d);
  }

  /** How a claim ends: canceled when nothing was handed out, else applied. */
  predicate ClaimEnded(c: Claim, n: Claim, delivered: int)
  {
    && n.delivery == c.delivery && n.owner == c.owner && n.quantity == c.quantity && n.applied == delivered
    && if delivered == 0 then n.status.ClaimCanceled? && n.cleaned
       else n.status.ClaimApplied? && n.cleaned == c.cleaned
  }

  /**
   Completing a prepared claim books the units handed out and frees all it reserved, with no other
   row changed; completing it again is accepted exactly for the same number of units, and changes nothing.
   */
  lemma ClaimCompletes(t: Tables, c: Id, delivered: int, sha: string -> int)
    requires Good(t, sha)
    ensures match CompleteClaim(t, c, delivered)
            case Err(e) =>
              if delivered < 0 then e == NegativeAmount
              else if c >= |t.claims| then e == ClaimMissing
              else if t.claims[c].status.ClaimPrepared? then e == ClaimTooLarge && t.claims[c].quantity < delivered
              else e == ClaimCompletedDifferently && t.claims[c].applied != delivered
            case Ok(u) =>
              && 0 <= delivered && c < |t.claims| && t.claims[c].delivery < |t.floor.deliveries|
              && var claim := t.claims[c];
                 var row := t.floor.deliveries[claim.delivery];
                 if claim.status.ClaimPrepared? then
                   && delivered <= claim.quantity && |u.claims| == |t.claims|
                   && ClaimEnded(claim, u.claims[c], delivered)
                   && u == t.(claims := t.claims[c := u.claims[c]],
                              floor := t.floor.(deliveries := t.floor.deliveries[claim.delivery :=
                                row.(claimed := row.claimed + delivered, reserved := row.reserved - claim.quantity)]))
                 else u == t && claim.applied == delivered
  {
    hide Good; hide ClaimsOk;
    GoodClaims(t, sha);
    if c < |t.claims| {
      ClaimRow(t.claims, t.floor.deliveries, c);
      if t.claims[c].status.ClaimPrepared? { PreparedClaimIsCovered(t.claims, t.floor.deliveries, c); }
    }
  }

  lemma ClaimRow(claims: seq<Claim>, deliveries: seq<Delivery>, c: Id)
    requires ClaimsOk(claims, deliveries) && c < |claims|
    ensures ClaimOk(claims[c], deliveries)
  {
    hide Sum;
  }

  /** Only an applied claim can be marked cleaned, and only its mark changes. */
  lemma ClaimIsCleaned(t: Tables, c: Id)
    ensures match CleanClaim(t, c)
            case Err(e) => e == ClaimNotApplied && (c < |t.claims| ==> !t.claims[c].status.ClaimApplied?)
            case Ok(u) => c < |t.claims| && t.claims[c].status.ClaimApplied?
                          && u == t.(claims := t.claims[c := t.claims[c].(cleaned := true)])
  {
  }

  // ----- sell escrows -----

  /**
   On an active market a sell is put into escrow with exactly its own terms, so that executing the
   escrow places the order that was asked for.
   */
  lemma EscrowKeepsRequest(t: Tables, cfg: Config, req: Request)
    requires Validate(cfg, req).None? && req.side.Sell?
    ensures match PrepareEscrow(t, req)
            case Err(e) => e == MarketInactive && (req.market < |t.markets| ==> !t.markets[req.market].active)
            case Ok((u, e)) =>
              && req.market < |t.markets| && t.markets[req.market].active
              && e == |t.escrows| && |u.escrows| == e + 1 && u == t.(escrows := t.escrows + [u.escrows[e]])
              && EscrowRequest(u.escrows[e]) == (if req.kind.Limit? then req else req.(price := 0))
              && var row := u.escrows[e];
              && row.status.EscrowPrepared? && row.tagged == 0 && row.receipts == 0 && row.order.None? && !row.cleaned
  {
  }

  /** Marked stacks are written down once: for a prepared escrow and at least the units asked for. */
  lemma EscrowIsTagged(t: Tables, e: Id, tagged: int, receipts: int)
    ensures match MarkTagged(t, e, tagged, receipts)
            case Err(x) =>
              if tagged <= 0 || receipts <= 0 then x == QuantityRange
              else if e >= |t.escrows| then x == EscrowMissing
              else if tagged < t.escrows[e].requested then x == EscrowTooSmall
              else
                && x == EscrowNotPrepared && !t.escrows[e].status.EscrowPrepared?
                && t.escrows[e] != t.escrows[e].(status := EscrowTagged, tagged := tagged, receipts := receipts)
            case Ok(u) =>
              && 0 < tagged && 0 < receipts && e < |t.escrows| && t.escrows[e].requested <= tagged
              && (t.escrows[e].status.EscrowPrepared? || u == t)
              && u == t.(escrows := t.escrows[e :=
                           t.escrows[e].(status := EscrowTagged, tagged := tagged, receipts := receipts)])
  {
    if e < |t.escrows| { assert t.escrows[e := t.escrows[e]] == t.escrows; }
  }

  /** What executing an escrow writes besides its order: the units marked beyond those asked for. */
  function Excess(row: Escrow): seq<Delivery>
  {
    if row.requested < row.tagged then
      [Delivery(row.owner, row.market, row.tagged - row.requested, 0, 0, EscrowExcess)]
    else []
  }

  /** A report of what an order has traded up to now, and of its owner's balance. */
  predicate SoldSoFar(f: Floor, owner: Player, x: Execution)
  {
    && x.order < |f.orders| && owner in f.accounts
    && var o := f.orders[x.order];
    && x.requested == o.original && x.open == o.remaining && x.balance == f.accounts[owner]
    && x.filled == Sum(f.trades, UnitsOf(Sell, x.order)) && x.gross == Sum(f.trades, ValueOf(Sell, x.order))
  }

  /**
   Executing a tagged escrow places its sell, with all that a sell writes, gives the excess units
   back to the owner, and ties the escrow to the order; executing an ordered one writes
   nothing and reports what the order has sold by now.
   */
  lemma EscrowIsSold(t: Tables, e: Id, sha: string -> int)
    requires Good(t, sha) && Priced(t)
    ensures match ExecuteEscrow(t, e)
            case Err(x) =>
              if e >= |t.escrows| then x == EscrowMissing
              else if t.escrows[e].status.EscrowTagged? then !Accepts(t, t.escrows[e])
              else x == EscrowNotTagged && !t.escrows[e].status.EscrowOrdered?
            case Ok((u, x)) =>
              && e < |t.escrows|
              && var row := t.escrows[e];
                 if row.status.EscrowOrdered? then
                   u == t && row.order == Some(x.order) && SoldSoFar(t.floor, row.owner, x)
                 else
                   && row.status.EscrowTagged? && Accepts(t, row)
                   && Booking.Booked(t.floor, u.floor, EscrowRequest(row), x, [],
                                     Booking.Remainder(EscrowRequest(row), x) + Excess(row))
                   && u == t.(floor := u.floor,
                              escrows := t.escrows[e := row.(status := EscrowOrdered, order := Some(x.order))])
  {
    hide Good; hide Sum; hide Total; hide PlaceSell; hide Executed; hide PricedRows; hide Sound; hide SellRefused;
    hide Booking.Booked; hide Booking.Remainder; hide ExecuteEscrow; hide Accepts; hide Excess; hide AddDelivery;
    if e < |t.escrows| {
      var row := t.escrows[e];
      var req := EscrowRequest(row);
      EscrowTerms(t, e, sha);
      GoodIsSound(t, sha);
      ExecuteEscrowShape(t, e);
      if row.status.EscrowTagged? {
        TaggedEscrowRefused(t, e, sha);
        Booking.SellIsBooked(t.floor, t.markets, req);
        var r := PlaceSell(t.floor, t.markets, req);
        if r.Ok? { ExcessIsBooked(t.floor, r.value.0, req, r.value.1, row); }
      } else {
        UntaggedExecutes(t, e, sha);
      }
    } else {
      MissingEscrow(t, e);
    }
  }

  lemma ExcessIsBooked(f: Floor, g: Floor, req: Request, x: Execution, row: Escrow)
    requires Booking.Booked(f, g, req, x, [], Booking.Remainder(req, x))
    ensures var h := AddDelivery(g, row.owner, row.market, row.tagged - row.requested, EscrowExcess);
            Booking.Booked(f, h, req, x, [], Booking.Remainder(req, x) + Excess(row))
  {
    hide Sum; hide Booking.Entries; hide Booking.Parcels; hide Booking.LessTraded; hide Booking.CommittedOrder;
    hide Booking.Remainder;
  }

  lemma MissingEscrow(t: Tables, e: Id)
    requires Priced(t) && |t.escrows| <= e
    ensures ExecuteEscrow(t, e) == Err(EscrowMissing)
  {
  }

  lemma UntaggedExecutes(t: Tables, e: Id, sha: string -> int)
    requires Good(t, sha) && Priced(t) && e < |t.escrows| && !t.escrows[e].status.EscrowTagged?
    ensures match ExecuteEscrow(t, e)
            case Err(x) => x == EscrowNotTagged && !t.escrows[e].status.EscrowOrdered?
            case Ok((u, x)) => u == t && t.escrows[e].status.EscrowOrdered? && t.escrows[e].order == Some(x.order)
                               && SoldSoFar(t.floor, t.escrows[e].owner, x)
  {
    hide Good; hide Sum; hide PlaceSell; hide SoldUnits; hide SoldValue;
    EscrowTerms(t, e, sha);
    if t.escrows[e].order.Some? { Guarantees.SameSums(t.floor, t.escrows[e].order.value); }
  }

  /** Only a prepared escrow is canceled, once; only an ordered one is marked cleaned. */
  lemma EscrowIsClosed(t: Tables, e: Id)
    ensures match CancelEscrow(t, e)
            case Err(x) =>
              if e >= |t.escrows| then x == EscrowMissing
              else
                && x == EscrowNotPrepared
                && (t.escrows[e].status.EscrowTagged? || t.escrows[e].status.EscrowOrdered?)
            case Ok(u) =>
              && e < |t.escrows|
              && if t.escrows[e].status.EscrowCanceled? then u == t
                 else t.escrows[e].status.EscrowPrepared?
                      && u == t.(escrows := t.escrows[e := t.escrows[e].(status := EscrowCanceled, cleaned := true)])
    ensures match CleanEscrow(t, e)
            case Err(x) => x == EscrowNotOrdered && (e < |t.escrows| ==> !t.escrows[e].status.EscrowOrdered?)
            case Ok(u) => e < |t.escrows| && t.escrows[e].status.EscrowOrdered?
                          && u == t.(escrows := t.escrows[e := t.escrows[e].(cleaned := true)])
  {
  }

  // ----- economy transfers -----

  /**
   A transfer starts PREPARED with its own terms; a withdrawal takes its cents from the balance at
   once and is refused exactly when the balance is less.
   */
  lemma TransferStarts(t: Tables, p: Player, name: string, direction: Direction, cents: int, units: int,
                       before: Option<int>)
    requires p in t.floor.accounts && TransferRefused(p, name, cents, units).None?
    ensures p != "" && name != "" && 0 < cents && 0 < units
    ensures match PrepareTransfer(t, p, name, direction, cents, units, before)
            case Err(e) => e == InsufficientBalance && direction.Withdraw? && t.floor.accounts[p] < cents
            case Ok((u, i)) =>
              && i == |t.transfers| && (direction.Withdraw? ==> cents <= t.floor.accounts[p])
              && u == t.(floor := u.floor, transfers :=
                           t.transfers + [Transfer(p, name, direction, cents, units, TransferPrepared, before, None)])
              && if direction.Deposit? then u.floor == t.floor
                 else OnePosting(t.floor, u.floor, Entry(p, -cents, UmoneyWithdrawReserved, Some(i)))
  {
  }

  /** The moves of a transfer's status, and the money that goes with them. */
  lemma TransferMoves(t: Tables, i: Id, balance: int, sha: string -> int)
    requires Good(t, sha) && i < |t.transfers|
    ensures t.transfers[i].owner in t.floor.accounts
    ensures var x := t.transfers[i];
            match MarkExternalApplied(t, i, balance)
            case Err(e) => e == TransferClosed && (x.status.TransferFailed? || x.status.TransferBlocked?)
            case Ok(u) =>
              if x.status.TransferPrepared? then
                u == t.(transfers := t.transfers[i := x.(status := ExternalApplied, after := Some(balance))])
              else u == t && (x.status.ExternalApplied? || x.status.TransferCompleted?)
    ensures var x := t.transfers[i];
            match BlockTransfer(t, i)
            case Err(e) => e == TransferMissing && !x.status.TransferPrepared?
            case Ok(u) => x.status.TransferPrepared?
                          && u == t.(transfers := t.transfers[i := x.(status := TransferBlocked)])
  {
    hide Good;
    TransferRowOk(t, i, sha);
  }

  /** Completing credits an applied deposit its cents, once; it waits while the balance cannot hold them. */
  lemma TransferEnds(t: Tables, i: Id, sha: string -> int)
    requires Good(t, sha) && i < |t.transfers|
    ensures t.transfers[i].owner in t.floor.accounts
    ensures var x := t.transfers[i];
            match CompleteTransfer(t, i)
            case Err(e) =>
              if x.status.TransferFailed? then e == TransferClosed
              else if x.status.ExternalApplied? then
                e == BalanceOverflow && x.direction.Deposit? && t.floor.accounts[x.owner] + x.cents > INT64_MAX
              else e == TransferNotApplied && (x.status.TransferPrepared? || x.status.TransferBlocked?)
            case Ok(u) =>
              if x.status.TransferCompleted? then u == t
              else
                && x.status.ExternalApplied?
                && u == t.(floor := u.floor, transfers := t.transfers[i := x.(status := TransferCompleted)])
                && if x.direction.Withdraw? then u.floor == t.floor
                   else OnePosting(t.floor, u.floor, Entry(x.owner, x.cents, UmoneyDeposit, Some(i)))
  {
    hide Good;
    TransferRowOk(t, i, sha);
  }

  /** Failing gives a prepared withdrawal its cents back, once. */
  lemma TransferIsGivenBack(t: Tables, i: Id, sha: string -> int)
    requires Good(t, sha) && i < |t.transfers|
    ensures t.transfers[i].owner in t.floor.accounts
    ensures var x := t.transfers[i];
            match FailTransfer(t, i)
            case Err(e) =>
              if x.status.TransferPrepared? then
                e == BalanceOverflow && x.direction.Withdraw? && t.floor.accounts[x.owner] + x.cents > INT64_MAX
              else e == TransferApplied && !x.status.TransferFailed?
            case Ok(u) =>
              if x.status.TransferFailed? then u == t
              else
                && x.status.TransferPrepared?
                && u == t.(floor := u.floor, transfers := t.transfers[i := x.(status := TransferFailed)])
                && if x.direction.Deposit? then u.floor == t.floor
                   else OnePosting(t.floor, u.floor, Entry(x.owner, x.cents, UmoneyWithdrawRefund, Some(i)))
  {
    hide Good;
    TransferRowOk(t, i, sha);
  }

  // ----- frame listings -----

  lemma GoodFrames(t: Tables, sha: string -> int)
    requires Good(t, sha)
    ensures ListingsOk(t.listings, t.frames, t.floor.accounts.Keys)
  {
    hide Good; hide Sum;
    GoodMoney(t, sha);
  }

  /**
   A frame gets a new listing with the terms that were given, in place of the one it has. The old
   one must still be for sale and the seller's own, unless an administrator replaces it; it is canceled.
   */
  lemma ListingIsReplaced(t: Tables, l: Listing, administrator: bool, sha: string -> int)
    requires Good(t, sha)
    ensures match Upsert(t, l, administrator)
            case Err(e) =>
              && l.target in t.frames && t.frames[l.target] < |t.listings|
              && var bound := t.listings[t.frames[l.target]];
                 if bound.status.ListingActive? then e == NotOwner && !administrator && bound.seller != l.seller
                 else e == ListingSettling
            case Ok((u, i)) =>
              && i == |t.listings| && |u.listings| == i + 1
              && u == t.(listings := u.listings, frames := t.frames[l.target := i])
              && u.listings[i] == Listing(l.target, l.seller, l.price, l.item, ListingActive, None)
              && forall j: nat :: j < i ==>
                   if l.target in t.frames && t.frames[l.target] == j then
                     && t.listings[j].status.ListingActive? && (administrator || t.listings[j].seller == l.seller)
                     && u.listings[j] == t.listings[j].(status := ListingCanceled)
                   else u.listings[j] == t.listings[j]
  {
    hide Good;
    GoodFrames(t, sha);
    var r := Upsert(t, l, administrator);
    if r.Ok? && l.target in t.frames {
      FramesAreDistinct(t, l.target, sha);
      assert (t.frames - {l.target})[l.target := |t.listings|] == t.frames[l.target := |t.listings|];
    }
  }

  /** Taking out every binding of a bound listing takes out the one of its frame. */
  lemma FramesAreDistinct(t: Tables, target: string, sha: string -> int)
    requires Good(t, sha) && target in t.frames
    ensures UnbindAll(t.frames, t.frames[target]) == t.frames - {target}
  {
    hide Good;
    GoodFrames(t, sha);
  }

  /** The seller, or an administrator, takes a listing that is still for sale off its frame. */
  lemma ListingIsCanceled(t: Tables, id: Id, p: Player, administrator: bool, sha: string -> int)
    requires Good(t, sha)
    ensures match CancelListing(t, id, p, administrator)
            case Err(e) =>
              if id >= |t.listings| then e == ListingMissing
              else
                var l := t.listings[id];
                if l.status.ListingActive? then e == NotOwner && !administrator && l.seller != p
                else e == ListingSettling && !l.status.ListingCanceled?
            case Ok(u) =>
              && id < |t.listings|
              && var l := t.listings[id];
                 if l.status.ListingCanceled? then u == t
                 else
                   && l.status.ListingActive? && (administrator || l.seller == p)
                   && u == t.(listings := t.listings[id := l.(status := ListingCanceled)],
                              frames := t.frames - {l.target})
  {
    hide Good;
    GoodFrames(t, sha);
    if id < |t.listings| && t.listings[id].status.ListingActive? { FramesAreDistinct(t, t.listings[id].target, sha); }
  }

  /**
   A listing is sold to another player at the price that player was shown: the buyer pays it, the
   seller gets it, and both entries name the listing. It is refused exactly when it is not for sale,
   the price differs, the buyer is the seller or lacks the money, or the seller's balance cannot hold it.
   */
  lemma ListingIsSold(t: Tables, id: Id, buyer: Player, expected: int, sha: string -> int)
    requires Good(t, sha) && buyer in t.floor.accounts
    ensures match Purchase(t, id, buyer, expected)
            case Err(e) =>
              if id >= |t.listings| then e == ListingMissing
              else
                var l := t.listings[id];
                if !l.status.ListingActive? then e == ListingUnavailable
                else if l.price != expected then e == PriceChanged
                else if l.seller == buyer then e == SelfPurchase
                else if t.floor.accounts[buyer] < l.price then e == InsufficientBalance
                else e == BalanceOverflow && l.seller in t.floor.accounts
                     && t.floor.accounts[l.seller] + l.price > INT64_MAX
            case Ok(u) =>
              && id < |t.listings|
              && var l := t.listings[id];
              && l.status.ListingActive? && l.price == expected && l.seller != buyer && l.seller in t.floor.accounts
              && l.price <= t.floor.accounts[buyer] && t.floor.accounts[l.seller] + l.price <= INT64_MAX
              && u == t.(floor := u.floor,
                         listings := t.listings[id := l.(status := ListingPaid, buyer := Some(buyer))])
              && u.floor == t.floor.(
                   accounts := t.floor.accounts[buyer := t.floor.accounts[buyer] - l.price]
                                               [l.seller := t.floor.accounts[l.seller] + l.price],
                   ledger := t.floor.ledger + [Entry(buyer, -l.price, FramePurchase, Some(id))]
                             + [Entry(l.seller, l.price, FrameSale, Some(id))])
  {
    hide Good;
    GoodFrames(t, sha);
  }

  /** A paid listing is dropped and picked up, or picked up at once; its frame is free only after the pickup. */
  lemma ListingIsHandedOver(t: Tables, id: Id, sha: string -> int)
    requires Good(t, sha)
    ensures match MarkDropped(t, id)
            case Err(e) => if id >= |t.listings| then e == ListingMissing
                           else e == NotAwaitingPickup && !PaidFor(t.listings[id].status)
            case Ok(u) =>
              && id < |t.listings| && PaidFor(t.listings[id].status)
              && u == (if t.listings[id].status.ListingPaid?
                       then t.(listings := t.listings[id := t.listings[id].(status := ListingDropped)]) else t)
    ensures match CompletePickup(t, id)
            case Err(e) => if id >= |t.listings| then e == ListingMissing
                           else e == NotAwaitingPickup && !PaidFor(t.listings[id].status)
            case Ok(u) =>
              && id < |t.listings| && PaidFor(t.listings[id].status)
              && u == (if t.listings[id].status.ListingClaimed? then t
                       else t.(listings := t.listings[id := t.listings[id].(status := ListingClaimed)],
                               frames := t.frames - {t.listings[id].target}))
  {
    hide Good;
    GoodFrames(t, sha);
    if id < |t.listings| && Bound(t.listings[id].status) { FramesAreDistinct(t, t.listings[id].target, sha); }
  }

  // ----- what a call needs to be accepted, from outside -----

  lemma OpenedBalance(t: Tables, cfg: Config, p: Player, sha: string -> int)
    requires Good(t, sha) && ConfigOk(cfg) && p != ""
    ensures var u := After(t, EnsureAccount(t, cfg, p));
            && Good(u, sha) && u == t.(floor := u.floor)
            && u.floor.accounts == t.floor.accounts[p := BalanceToBe(t.floor, cfg, p)]
  {
    hide Good; hide EnsureAccount;
    EnsureAccountKeepsGood(t, cfg, p, sha);
    AccountOpens(t, cfg, p);
  }

  /**
   A transfer is started exactly for a named player and positive amounts, and, to withdraw, with a
   balance that covers it, counting the one a first call opens.
   */
  lemma TransferNeeds(t: Tables, cfg: Config, sha: string -> int, p: Player, name: string, direction: Direction,
                      cents: int, units: int, before: Option<int>)
    requires Good(t, sha) && Priced(t) && ConfigOk(cfg)
    ensures var u := Step(t, cfg, sha, DoPrepareTransfer(p, name, direction, cents, units, before));
            |u.transfers| > |t.transfers| <==>
              && p != "" && name != "" && 0 < cents && 0 < units
              && (direction.Withdraw? ==> cents <= BalanceToBe(t.floor, cfg, p))
  {
    hide Good; hide Priced; hide EnsureAccount; hide BalanceToBe; hide PrepareTransfer; hide TransferRefused;
    hide OnePosting;
    if p != "" {
      OpenedBalance(t, cfg, p, sha);
      var u := After(t, EnsureAccount(t, cfg, p));
      if TransferRefused(p, name, cents, units).None? {
        TransferStarts(u, p, name, direction, cents, units, before);
      }
    }
  }

  /**
   A frame is listed exactly when target, seller, price and item are given and the frame has no
   listing, or one that is still for sale and the seller's own or an administrator's to replace.
   */
  lemma ListingNeeds(t: Tables, cfg: Config, sha: string -> int, l: Listing, administrator: bool)
    requires Good(t, sha) && Priced(t) && ConfigOk(cfg)
    ensures var u := Step(t, cfg, sha, DoUpsert(l, administrator));
            |u.listings| > |t.listings| <==>
              && l.target != "" && l.seller != "" && 0 < l.price && l.item.kind != ""
              && (l.target in t.frames ==>
                    && t.frames[l.target] < |t.listings|
                    && var bound := t.listings[t.frames[l.target]];
                       bound.status.ListingActive? && (administrator || bound.seller == l.seller))
  {
    hide Good; hide Priced; hide EnsureAccount; hide BalanceToBe; hide UnbindAll;
    GoodFrames(t, sha);
    if l.seller != "" { OpenedBalance(t, cfg, l.seller, sha); }
  }

  /**
   A purchase goes through exactly for a named buyer other than the seller, a listing that is for
   sale at the price the buyer was shown, and balances that cover it and can hold it.
   */
  lemma PurchaseNeeds(t: Tables, cfg: Config, sha: string -> int, id: Id, buyer: Player, expected: int)
    requires Good(t, sha) && Priced(t) && ConfigOk(cfg) && id < |t.listings|
    ensures var l := t.listings[id];
            l.seller in t.floor.accounts
            && (Step(t, cfg, sha, DoPurchase(id, buyer, expected)).listings != t.listings <==>
                  && buyer != "" && buyer != l.seller && l.status.ListingActive? && l.price == expected
                  && l.price <= BalanceToBe(t.floor, cfg, buyer)
                  && t.floor.accounts[l.seller] + l.price <= INT64_MAX)
  {
    hide Good; hide Priced; hide EnsureAccount; hide BalanceToBe; hide Purchase;
    SellerHasAccount(t, id, sha);
    if buyer != "" && 0 < expected {
      OpenedBalance(t, cfg, buyer, sha);
      var u := After(t, EnsureAccount(t, cfg, buyer));
      ListingIsSold(u, id, buyer, expected, sha);
      var r := Purchase(u, id, buyer, expected);
      assert Step(t, cfg, sha, DoPurchase(id, buyer, expected)) == After(u, r);
      var l := t.listings[id];
      assert u.listings == t.listings && u.floor.accounts[buyer] == BalanceToBe(t.floor, cfg, buyer);
      if l.seller != buyer { assert u.floor.accounts[l.seller] == t.floor.accounts[l.seller]; }
      if r.Ok? { assert r.value.listings[id] != l; }
    }
  }

  lemma SellerHasAccount(t: Tables, id: Id, sha: string -> int)
    requires Good(t, sha) && id < |t.listings|
    ensures t.listings[id].seller in t.floor.accounts && 0 < t.listings[id].price
  {
    hide Good;
    GoodFrames(t, sha);
  }
}
