/** Accounts, economy transfers and frame listings keep the database good. */
module StepsMoney {
  import opened Sums
  import opened Domain
  import opened Matching
  import opened Settlement
  import opened MatchingLoops
  import opened Placement
  import opened Growth
  import opened Exchange
  import opened Invariants

  /** Accounts and ledger may change under everything else. */
  lemma BankChangeKeepsSound(f: Floor, g: Floor, markets: seq<Venue>)
    requires Sound(f, markets, -1) && BankOk(g) && f.accounts.Keys <= g.accounts.Keys
    requires g == f.(accounts := g.accounts, ledger := g.ledger)
    ensures Sound(g, markets, -1)
  {
    hide Sum; hide Total; hide TradeOk; hide RowOk; hide TradedOk;
    hide BankOk;
    forall i: nat | i < |g.orders|
      ensures RowOk(g.orders[i]) && TradedOk(g.orders[i], Traded(g, i))
    {
      assert RowOk(f.orders[i]) && TradedOk(f.orders[i], Traded(f, i));
    }
  }

  /** One non-trading entry: what it does to the totals. */
  ghost predicate Posted(f: Floor, g: Floor, e: Entry)
  {
    && g == f.(accounts := g.accounts, ledger := f.ledger + [e])
    && f.accounts.Keys <= g.accounts.Keys && e.player in g.accounts
    && g.accounts == f.accounts[e.player := BalanceOf(f, e.player) + e.delta]
    && Total(g.accounts) == Total(f.accounts) + e.delta
    && BankOk(g)
  }

  lemma PostedTotals(f: Floor, g: Floor, e: Entry, markets: seq<Venue>)
    requires Sound(f, markets, -1) && Posted(f, g, e) && !IsTrading(e.reason)
    ensures Sound(g, markets, -1)
    ensures Money(g) == Money(f) + e.delta
    ensures forall p :: Position(g, p) == Position(f, p) + (if p == e.player then e.delta else 0)
    ensures forall p :: Sum(g.ledger, Inflow(p)) == Sum(f.ledger, Inflow(p)) + (if p == e.player then e.delta else 0)
    ensures Sum(g.ledger, Minted()) == Sum(f.ledger, Minted()) + Minted()(e)
    ensures forall b :: Surplus(g, markets, b) == Surplus(f, markets, b)
    ensures forall p :: Undelivered(g, p) == Undelivered(f, p) && Unaccounted(g, p) == Unaccounted(f, p)
  {
    hide Sum; hide Total; hide Sound; hide BankOk;
    BankChangeKeepsSound(f, g, markets);
    forall p
      ensures Sum(g.ledger, Inflow(p)) == Sum(f.ledger, Inflow(p)) + (if p == e.player then e.delta else 0)
    {
      SumAppend(f.ledger, e, Inflow(p));
    }
    SumAppend(f.ledger, e, Minted());
  }

  /** The tables after one non-trading entry, with the transfers it belongs to. */
  lemma PostedKeepsGood(t: Tables, g: Floor, transfers: seq<Transfer>, e: Entry, sha: string -> int)
    requires Good(t, sha) && Posted(t.floor, g, e) && !IsTrading(e.reason) && !IsFrameReason(e.reason)
    requires e.delta == Minted()(e) + Sum(transfers, NetOf()) - Sum(t.transfers, NetOf())
    requires TransfersOk(transfers, g.ledger, g.accounts.Keys)
    ensures Good(t.(floor := g, transfers := transfers), sha)
  {
    hide Sum; hide Total; hide Sound; hide MarketsOk; hide ClaimsOk; hide EscrowsOk; hide TransfersOk;
    hide ListingsOk; hide SalesOk; hide Money; hide Position; hide Surplus; hide Undelivered; hide Unaccounted;
    hide BankOk; hide BalanceOf; hide OrdersKept; hide Minted;
    PostedTotals(t.floor, g, e, t.markets);
    OrdersKeptRefl(t.floor.orders);
    EscrowsSurvive(t.escrows, t.floor.orders, g.orders, t.floor.accounts.Keys, g.accounts.Keys, |t.markets|,
                   |t.markets|);
    ListingsSurvive(t.listings, t.frames, t.floor.accounts.Keys, g.accounts.Keys);
    SalesSurvive(t.listings, t.floor.ledger, g.ledger);
  }

  lemma OrdersKeptRefl(orders: seq<Order>)
    ensures OrdersKept(orders, orders)
  {
  }

  // ----- accounts -----

  lemma OpeningPosts(f: Floor, cfg: Config, p: Player)
    requires BankOk(f) && ConfigOk(cfg) && p !in f.accounts
    ensures var e := Entry(p, cfg.initialBalance, AccountOpened, None);
            Posted(f, f.(accounts := f.accounts[p := cfg.initialBalance], ledger := f.ledger + [e]), e)
  {
    hide Sum; hide Total;
    var e := Entry(p, cfg.initialBalance, AccountOpened, None);
    var g := f.(accounts := f.accounts[p := cfg.initialBalance], ledger := f.ledger + [e]);
    TotalUpdate(f.accounts, p, cfg.initialBalance);
    SumZero(f.ledger, DeltaOf(p));
    forall q | q in g.accounts
      ensures 0 <= g.accounts[q] <= INT64_MAX && Sum(g.ledger, DeltaOf(q)) == g.accounts[q]
    {
      SumAppend(f.ledger, e, DeltaOf(q));
    }
  }

  lemma MovePosts(f: Floor, p: Player, amount: int, reason: LedgerReason, reference: Option<Id>)
    requires BankOk(f) && p in f.accounts && 0 <= f.accounts[p] + amount <= INT64_MAX
    ensures Posted(f, Move(f, p, amount, reason, reference), Entry(p, amount, reason, reference))
  {
    hide Sum; hide Total;
    MoveKeepsBank(f, p, amount, reason, reference);
  }

  lemma EnsureAccountKeepsGood(t: Tables, cfg: Config, p: Player, sha: string -> int)
    requires Good(t, sha) && ConfigOk(cfg)
    ensures var u := After(t, EnsureAccount(t, cfg, p)); Good(u, sha) && (p != "" ==> p in u.floor.accounts)
  {
    hide Sum; hide Total;
    if p != "" && p !in t.floor.accounts {
      var e := Entry(p, cfg.initialBalance, AccountOpened, None);
      var g := t.floor.(accounts := t.floor.accounts[p := cfg.initialBalance], ledger := t.floor.ledger + [e]);
      SoundHasBank(t.floor, t.markets, -1);
      OpeningPosts(t.floor, cfg, p);
      TransfersSurvive(t.transfers, t.floor.ledger, g.ledger, t.floor.accounts.Keys, g.accounts.Keys);
      PostedKeepsGood(t, g, t.transfers, e, sha);
    }
  }

  lemma AdjustBalanceKeepsGood(t: Tables, p: Player, delta: int, sha: string -> int)
    requires Good(t, sha)
    ensures Good(After(t, AdjustBalance(t, p, delta)), sha)
  {
    hide Sum; hide Total;
    var r := AdjustBalance(t, p, delta);
    if r.Ok? {
      SoundHasBank(t.floor, t.markets, -1);
      MovePosts(t.floor, p, delta, AdminAdjustment, None);
      var g := r.value.floor;
      TransfersSurvive(t.transfers, t.floor.ledger, g.ledger, t.floor.accounts.Keys, g.accounts.Keys);
      PostedKeepsGood(t, g, t.transfers, Entry(p, delta, AdminAdjustment, None), sha);
    }
  }

  // ----- economy transfers -----

  predicate SameMoney(a: Transfer, b: Transfer)
  {
    a.owner == b.owner && a.cents == b.cents && a.units == b.units && NetOf()(a) == NetOf()(b)
  }

  /** A row changed in ways its money does not depend on. */
  lemma RelabelKeepsGood(t: Tables, i: Id, row: Transfer, sha: string -> int)
    requires Good(t, sha) && i < |t.transfers| && SameMoney(row, t.transfers[i])
    ensures Good(t.(transfers := t.transfers[i := row]), sha)
  {
    hide Sum; hide Total; hide Sound; hide MarketsOk; hide ClaimsOk; hide EscrowsOk; hide ItemsOk;
    hide ListingsOk; hide SalesOk; hide Money; hide Position;
    SumUpdate(t.transfers, i, row, NetOf());
  }

  lemma FreshTransferHasNoEntries(transfers: seq<Transfer>, ledger: seq<Entry>, keys: set<Player>)
    requires TransfersOk(transfers, ledger, keys)
    ensures Sum(ledger, TransferEntries(|transfers|)) == 0
  {
    SumZero(ledger, TransferEntries(|transfers|));
  }

  /** Row `i`, new or old, together with the ledger entry that goes with its change. */
  lemma TransferEntryKeepsOk(transfers: seq<Transfer>, now: seq<Transfer>, ledger: seq<Entry>, e: Entry, i: Id,
                             keys: set<Player>)
    requires TransfersOk(transfers, ledger, keys)
    requires i <= |transfers| && IsTransferReason(e.reason) && e.reference == Some(i)
    requires if i < |transfers| then |now| == |transfers| && now == transfers[i := now[i]]
             else |now| == |transfers| + 1 && now == transfers + [now[i]]
    requires now[i].owner in keys && 0 < now[i].cents && 0 < now[i].units
    requires e.delta == NetOf()(now[i]) - (if i < |transfers| then NetOf()(transfers[i]) else 0)
    ensures TransfersOk(now, ledger + [e], keys)
    ensures Sum(now, NetOf()) == Sum(transfers, NetOf()) + e.delta
  {
    hide Sum;
    FreshTransferHasNoEntries(transfers, ledger, keys);
    forall j: nat | j < |now|
      ensures Sum(ledger + [e], TransferEntries(j)) == NetOf()(now[j])
    {
      SumAppend(ledger, e, TransferEntries(j));
    }
    if i < |transfers| { SumUpdate(transfers, i, now[i], NetOf()); } else { SumAppend(transfers, now[i], NetOf()); }
  }

  lemma TransferPostKeepsGood(t: Tables, now: seq<Transfer>, e: Entry, i: Id, sha: string -> int)
    requires Good(t, sha) && e.player in t.floor.accounts && 0 <= t.floor.accounts[e.player] + e.delta <= INT64_MAX
    requires i <= |t.transfers| && IsTransferReason(e.reason) && e.reference == Some(i)
    requires if i < |t.transfers| then |now| == |t.transfers| && now == t.transfers[i := now[i]]
             else |now| == |t.transfers| + 1 && now == t.transfers + [now[i]]
    requires now[i].owner in t.floor.accounts && 0 < now[i].cents && 0 < now[i].units
    requires e.delta == NetOf()(now[i]) - (if i < |t.transfers| then NetOf()(t.transfers[i]) else 0)
    ensures Good(t.(floor := Move(t.floor, e.player, e.delta, e.reason, e.reference), transfers := now), sha)
  {
    hide Sum; hide Total; hide Posted; hide NetOf; hide Sound; hide TransfersOk;
    var g := Move(t.floor, e.player, e.delta, e.reason, e.reference);
    SoundHasBank(t.floor, t.markets, -1);
    MovePosts(t.floor, e.player, e.delta, e.reason, e.reference);
    TransferEntryKeepsOk(t.transfers, now, t.floor.ledger, e, i, t.floor.accounts.Keys);
    assert g.accounts.Keys == t.floor.accounts.Keys;
    PostedKeepsGood(t, g, now, e, sha);
  }

  lemma PrepareTransferKeepsGood(t: Tables, p: Player, name: string, direction: Direction, cents: int, units: int,
                                 before: Option<int>, sha: string -> int)
    requires Good(t, sha) && p in t.floor.accounts && 0 < cents && 0 < units
    ensures Good(AfterPair(t, PrepareTransfer(t, p, name, direction, cents, units, before)), sha)
  {
    hide Sum; hide Total; hide Sound; hide MarketsOk; hide ClaimsOk; hide EscrowsOk; hide ItemsOk;
    hide ListingsOk; hide SalesOk; hide Money; hide Position;
    var row := Transfer(p, name, direction, cents, units, TransferPrepared, before, None);
    var i := |t.transfers|;
    if direction.Deposit? {
      FreshTransferHasNoEntries(t.transfers, t.floor.ledger, t.floor.accounts.Keys);
      SumAppend(t.transfers, row, NetOf());
    } else if cents <= t.floor.accounts[p] {
      SoundHasBank(t.floor, t.markets, -1);
      InRange(t.floor, p);
      TransferPostKeepsGood(t, t.transfers + [row], Entry(p, -cents, UmoneyWithdrawReserved, Some(i)), i, sha);
    }
  }

  lemma InRange(f: Floor, p: Player)
    requires BankOk(f) && p in f.accounts
    ensures 0 <= f.accounts[p] <= INT64_MAX
  {
  }

  lemma TransferRowOk(t: Tables, i: Id, sha: string -> int)
    requires Good(t, sha) && i < |t.transfers|
    ensures t.transfers[i].owner in t.floor.accounts && 0 < t.transfers[i].cents && 0 < t.transfers[i].units
    ensures 0 <= t.floor.accounts[t.transfers[i].owner] <= INT64_MAX
  {
    hide Sum; hide Total;
  }

  lemma MarkExternalAppliedKeepsGood(t: Tables, i: Id, balance: int, sha: string -> int)
    requires Good(t, sha)
    ensures Good(After(t, MarkExternalApplied(t, i, balance)), sha)
  {
    hide Good;
    if i < |t.transfers| {
      RelabelIfSame(t, i, t.transfers[i].(status := ExternalApplied, after := Some(balance)), sha);
    }
  }

  lemma RelabelIfSame(t: Tables, i: Id, row: Transfer, sha: string -> int)
    requires Good(t, sha) && i < |t.transfers|
    ensures SameMoney(row, t.transfers[i]) ==> Good(t.(transfers := t.transfers[i := row]), sha)
  {
    hide Good; hide NetOf;
    if SameMoney(row, t.transfers[i]) {
      RelabelKeepsGood(t, i, row, sha);
    }
  }

  lemma CompleteTransferKeepsGood(t: Tables, i: Id, sha: string -> int)
    requires Good(t, sha)
    ensures Good(After(t, CompleteTransfer(t, i)), sha)
  {
    hide Good;
    if i < |t.transfers| {
      var was := t.transfers[i];
      var row := was.(status := TransferCompleted);
      TransferRowOk(t, i, sha);
      RelabelIfSame(t, i, row, sha);
      if was.status.ExternalApplied? && was.direction.Deposit?
         && t.floor.accounts[was.owner] + was.cents <= INT64_MAX {
        TransferPostKeepsGood(t, t.transfers[i := row], Entry(was.owner, was.cents, UmoneyDeposit, Some(i)), i, sha);
      }
    }
  }

  lemma FailTransferKeepsGood(t: Tables, i: Id, sha: string -> int)
    requires Good(t, sha)
    ensures Good(After(t, FailTransfer(t, i)), sha)
  {
    hide Good;
    if i < |t.transfers| {
      var was := t.transfers[i];
      var row := was.(status := TransferFailed);
      TransferRowOk(t, i, sha);
      RelabelIfSame(t, i, row, sha);
      if was.status.TransferPrepared? && was.direction.Withdraw?
         && t.floor.accounts[was.owner] + was.cents <= INT64_MAX {
        TransferPostKeepsGood(t, t.transfers[i := row], Entry(was.owner, was.cents, UmoneyWithdrawRefund, Some(i)), i,
                              sha);
      }
    }
  }

  lemma BlockTransferKeepsGood(t: Tables, i: Id, sha: string -> int)
    requires Good(t, sha)
    ensures Good(After(t, BlockTransfer(t, i)), sha)
  {
    hide Good;
    if i < |t.transfers| {
      RelabelIfSame(t, i, t.transfers[i].(status := TransferBlocked), sha);
    }
  }

  // ----- frame listings -----

  /** Listings changed without money: the bindings follow, and no paid listing changed its sale. */
  lemma ListingsChangeKeepsGood(t: Tables, listings: seq<Listing>, frames: map<string, Id>, sha: string -> int)
    requires Good(t, sha) && ListingsOk(listings, frames, t.floor.accounts.Keys) && SalesOk(listings, t.floor.ledger)
    ensures Good(t.(listings := listings, frames := frames), sha)
  {
    hide Sum; hide Total; hide Sound; hide MarketsOk; hide ClaimsOk; hide EscrowsOk; hide ItemsOk; hide CashOk;
    hide TransfersOk; hide ListingsOk; hide SalesOk;
  }

  lemma SalesAfterRelabel(listings: seq<Listing>, ledger: seq<Entry>, i: Id, l: Listing)
    requires SalesOk(listings, ledger) && i < |listings|
    requires l.buyer == listings[i].buyer && l.price == listings[i].price && l.seller == listings[i].seller
    requires PaidFor(l.status) == PaidFor(listings[i].status)
    ensures SalesOk(listings[i := l], ledger)
  {
    hide Sum;
    var now := listings[i := l];
    forall j: nat | j < |now|
      ensures SaleOk(now[j], j, ledger)
    {
      assert SaleOk(listings[j], j, ledger);
    }
  }

  lemma SalesAfterInsert(listings: seq<Listing>, ledger: seq<Entry>, l: Listing)
    requires SalesOk(listings, ledger) && l.buyer.None? && !PaidFor(l.status)
    ensures SalesOk(listings + [l], ledger)
  {
    hide Sum;
    var n := |listings|;
    forall k | 0 <= k < |ledger|
      ensures SaleCount(FramePurchase, n)(ledger[k]) == 0 && SaleCount(FrameSale, n)(ledger[k]) == 0
    {
    }
    SumZero(ledger, SaleCount(FramePurchase, n));
    SumZero(ledger, SaleCount(FrameSale, n));
    forall j: nat | j < |listings + [l]|
      ensures SaleOk((listings + [l])[j], j, ledger)
    {
      if j < n { assert SaleOk(listings[j], j, ledger); }
    }
  }

  lemma InsertBinds(listings: seq<Listing>, frames: map<string, Id>, keys: set<Player>, l: Listing)
    requires ListingsOk(listings, frames, keys) && l.target !in frames
    requires l.status.ListingActive? && l.buyer.None? && 0 < l.price && l.seller in keys
    ensures ListingsOk(listings + [l], frames[l.target := |listings|], keys)
  {
  }

  lemma CancelUnbinds(listings: seq<Listing>, frames: map<string, Id>, keys: set<Player>, i: Id)
    requires ListingsOk(listings, frames, keys) && i < |listings| && listings[i].status.ListingActive?
    ensures ListingsOk(listings[i := listings[i].(status := ListingCanceled)], UnbindAll(frames, i), keys)
    ensures listings[i].target !in UnbindAll(frames, i)
  {
  }

  lemma UpsertBinds(t: Tables, l: Listing, administrator: bool)
    requires ListingsOk(t.listings, t.frames, t.floor.accounts.Keys)
    requires !ListingIncomplete(l) && l.seller in t.floor.accounts
    ensures var r := Upsert(t, l, administrator);
            && (r.Ok? ==> ListingsOk(r.value.0.listings, r.value.0.frames, t.floor.accounts.Keys))
            && (l.target in t.frames ==> t.frames[l.target] < |t.listings|)
            && (r.Ok? && l.target in t.frames ==> !PaidFor(t.listings[t.frames[l.target]].status))
  {
    var added, keys := l.(status := ListingActive, buyer := None), t.floor.accounts.Keys;
    if l.target in t.frames {
      var bound := t.frames[l.target];
      assert bound < |t.listings| && t.listings[bound].target == l.target;
      hide ListingsOk; hide UnbindAll;
      if t.listings[bound].status.ListingActive? {
        CancelUnbinds(t.listings, t.frames, keys, bound);
        var listings := t.listings[bound := t.listings[bound].(status := ListingCanceled)];
        InsertBinds(listings, UnbindAll(t.frames, bound), keys, added);
      }
    } else {
      InsertBinds(t.listings, t.frames, keys, added);
    }
  }

  lemma UpsertKeepsGood(t: Tables, l: Listing, administrator: bool, sha: string -> int)
    requires Good(t, sha) && !ListingIncomplete(l) && l.seller in t.floor.accounts
    ensures Good(AfterPair(t, Upsert(t, l, administrator)), sha)
  {
    hide Sum; hide Total; hide Sound; hide MarketsOk; hide ClaimsOk; hide EscrowsOk; hide ItemsOk; hide CashOk;
    hide TransfersOk; hide SalesOk; hide Money; hide Position; hide ListingsOk;
    var r := Upsert(t, l, administrator);
    UpsertBinds(t, l, administrator);
    if r.Ok? {
      var u := r.value.0;
      var added := l.(status := ListingActive, buyer := None);
      if l.target in t.frames {
        var bound := t.frames[l.target];
        var canceled := t.listings[bound].(status := ListingCanceled);
        SalesAfterRelabel(t.listings, t.floor.ledger, bound, canceled);
        SalesAfterInsert(t.listings[bound := canceled], t.floor.ledger, added);
      } else {
        SalesAfterInsert(t.listings, t.floor.ledger, added);
      }
      ListingsChangeKeepsGood(t, u.listings, u.frames, sha);
    }
  }

  lemma CancelListingKeepsGood(t: Tables, id: Id, p: Player, administrator: bool, sha: string -> int)
    requires Good(t, sha)
    ensures Good(After(t, CancelListing(t, id, p, administrator)), sha)
  {
    hide Sum; hide Total; hide Sound; hide MarketsOk; hide ClaimsOk; hide EscrowsOk; hide ItemsOk; hide CashOk;
    hide TransfersOk; hide SalesOk; hide Money; hide Position;
    var r := CancelListing(t, id, p, administrator);
    if r.Ok? && !t.listings[id].status.ListingCanceled? {
      SalesAfterRelabel(t.listings, t.floor.ledger, id, r.value.listings[id]);
    }
  }

  lemma MarkDroppedKeepsGood(t: Tables, id: Id, sha: string -> int)
    requires Good(t, sha)
    ensures Good(After(t, MarkDropped(t, id)), sha)
  {
    hide Sum; hide Total; hide Sound; hide MarketsOk; hide ClaimsOk; hide EscrowsOk; hide ItemsOk; hide CashOk;
    hide TransfersOk; hide SalesOk; hide Money; hide Position;
    var r := MarkDropped(t, id);
    if r.Ok? { SalesAfterRelabel(t.listings, t.floor.ledger, id, r.value.listings[id]); }
  }

  lemma CompletePickupKeepsGood(t: Tables, id: Id, sha: string -> int)
    requires Good(t, sha)
    ensures Good(After(t, CompletePickup(t, id)), sha)
  {
    hide Sum; hide Total; hide Sound; hide MarketsOk; hide ClaimsOk; hide EscrowsOk; hide ItemsOk; hide CashOk;
    hide TransfersOk; hide SalesOk; hide Money; hide Position;
    var r := CompletePickup(t, id);
    if r.Ok? { SalesAfterRelabel(t.listings, t.floor.ledger, id, r.value.listings[id]); }
  }

  // ----- frame purchases -----

  /** Nothing was ever posted for a listing nobody paid for. */
  lemma NoSaleYet(ledger: seq<Entry>, r: LedgerReason, id: Id, e: Entry)
    requires Sum(ledger, SaleCount(r, id)) == 0 && e.reason == r && e.reference == Some(id)
    ensures Sum(ledger, EntryCount(e)) == 0
  {
    SumNonNegative(ledger, SaleCount(r, id));
    forall k | 0 <= k < |ledger|
      ensures EntryCount(e)(ledger[k]) == 0
    {
      assert SaleCount(r, id)(ledger[k]) <= 0;
    }
    SumZero(ledger, EntryCount(e));
  }

  /** The pair of entries of a purchase, seen by one weight. */
  lemma SumOfPair(ledger: seq<Entry>, paid: Entry, sold: Entry, w: Entry -> int)
    ensures Sum(ledger + [paid] + [sold], w) == Sum(ledger, w) + w(paid) + w(sold)
  {
    SumAppend(ledger, paid, w);
    SumAppend(ledger + [paid], sold, w);
  }

  lemma OneSaleOk(l: Listing, j: Id, id: Id, ledger: seq<Entry>, paid: Entry, sold: Entry)
    requires SaleOk(l, j, ledger) && j != id
    requires paid.reference == Some(id) && sold.reference == Some(id)
    ensures SaleOk(l, j, ledger + [paid] + [sold])
  {
    hide Sum;
    SumOfPair(ledger, paid, sold, SaleCount(FramePurchase, j));
    SumOfPair(ledger, paid, sold, SaleCount(FrameSale, j));
    if l.buyer.Some? {
      SumOfPair(ledger, paid, sold, EntryCount(Entry(l.buyer.value, -l.price, FramePurchase, Some(j))));
      SumOfPair(ledger, paid, sold, EntryCount(Entry(l.seller, l.price, FrameSale, Some(j))));
    }
  }

  lemma NewSaleOk(l: Listing, id: Id, buyer: Player, ledger: seq<Entry>)
    requires SaleOk(l, id, ledger) && !PaidFor(l.status)
    ensures var now := l.(status := ListingPaid, buyer := Some(buyer));
            SaleOk(now, id, ledger + [Entry(buyer, -l.price, FramePurchase, Some(id))]
                                   + [Entry(l.seller, l.price, FrameSale, Some(id))])
  {
    hide Sum;
    var paid, sold := Entry(buyer, -l.price, FramePurchase, Some(id)), Entry(l.seller, l.price, FrameSale, Some(id));
    SumOfPair(ledger, paid, sold, SaleCount(FramePurchase, id));
    SumOfPair(ledger, paid, sold, SaleCount(FrameSale, id));
    SumOfPair(ledger, paid, sold, EntryCount(paid));
    SumOfPair(ledger, paid, sold, EntryCount(sold));
    NoSaleYet(ledger, FramePurchase, id, paid);
    NoSaleYet(ledger, FrameSale, id, sold);
  }

  lemma SalesAfterPurchase(listings: seq<Listing>, id: Id, buyer: Player, ledger: seq<Entry>)
    requires SalesOk(listings, ledger) && id < |listings| && !PaidFor(listings[id].status)
    ensures var l := listings[id];
            SalesOk(listings[id := l.(status := ListingPaid, buyer := Some(buyer))],
                    ledger + [Entry(buyer, -l.price, FramePurchase, Some(id))]
                           + [Entry(l.seller, l.price, FrameSale, Some(id))])
  {
    hide SaleOk; hide Sum;
    var l := listings[id];
    var paid, sold := Entry(buyer, -l.price, FramePurchase, Some(id)), Entry(l.seller, l.price, FrameSale, Some(id));
    var now := listings[id := l.(status := ListingPaid, buyer := Some(buyer))];
    forall j: nat | j < |now|
      ensures SaleOk(now[j], j, ledger + [paid] + [sold])
    {
      assert SaleOk(listings[j], j, ledger);
      if j == id { NewSaleOk(l, id, buyer, ledger); } else { OneSaleOk(listings[j], j, id, ledger, paid, sold); }
    }
  }

  /** The two money moves of a purchase, without their entries' other effects. */
  lemma PurchaseMoves(f: Floor, g: Floor, h: Floor, paid: Entry, sold: Entry, markets: seq<Venue>,
                      transfers: seq<Transfer>,
                      escrows: seq<Escrow>)
    requires Sound(f, markets, -1) && Posted(f, g, paid) && Posted(g, h, sold)
    requires paid.reason == FramePurchase && sold.reason == FrameSale && paid.delta + sold.delta == 0
    requires CashOk(f, transfers) && ItemsOk(f, markets, escrows)
    ensures Sound(h, markets, -1) && CashOk(h, transfers) && ItemsOk(h, markets, escrows)
    ensures Money(h) == Money(f)
    ensures h == f.(accounts := h.accounts, ledger := f.ledger + [paid] + [sold])
  {
    hide Sum; hide Total; hide Sound; hide BankOk; hide Money; hide Position; hide Surplus; hide Undelivered;
    hide Unaccounted; hide BalanceOf;
    PostedTotals(f, g, paid, markets);
    PostedTotals(g, h, sold, markets);
  }

  lemma PurchasePosts(f: Floor, buyer: Player, seller: Player, price: int, id: Id)
    requires BankOk(f) && buyer in f.accounts && seller in f.accounts && buyer != seller
    requires 0 < price <= f.accounts[buyer] && f.accounts[seller] + price <= INT64_MAX
    ensures var g := Move(f, buyer, -price, FramePurchase, Some(id));
            && Posted(f, g, Entry(buyer, -price, FramePurchase, Some(id)))
            && Posted(g, Move(g, seller, price, FrameSale, Some(id)), Entry(seller, price, FrameSale, Some(id)))
  {
    hide Sum; hide Total;
    MovePosts(f, buyer, -price, FramePurchase, Some(id));
    var g := Move(f, buyer, -price, FramePurchase, Some(id));
    InRange(g, seller);
    MovePosts(g, seller, price, FrameSale, Some(id));
  }

  lemma ListingsAfterPurchase(listings: seq<Listing>, frames: map<string, Id>, keys: set<Player>, id: Id, buyer: Player)
    requires ListingsOk(listings, frames, keys) && id < |listings| && listings[id].status.ListingActive?
    requires buyer in keys && buyer != listings[id].seller
    ensures ListingsOk(listings[id := listings[id].(status := ListingPaid, buyer := Some(buyer))], frames, keys)
  {
  }

  /** The tables of a committed purchase: two balances, a pair of entries, the listing's status and buyer. */
  lemma PurchaseShape(t: Tables, id: Id, buyer: Player, expected: int, u: Tables)
    requires Purchase(t, id, buyer, expected) == Ok(u) && id < |t.listings| && 0 < t.listings[id].price
    ensures var l, f := t.listings[id], t.floor;
            && l.status.ListingActive? && buyer != l.seller && buyer in f.accounts && l.seller in f.accounts
            && l.price == expected <= f.accounts[buyer] && f.accounts[l.seller] + l.price <= INT64_MAX
            && var g := Move(f, buyer, -l.price, FramePurchase, Some(id));
            && u == t.(floor := Move(g, l.seller, l.price, FrameSale, Some(id)),
                       listings := t.listings[id := l.(status := ListingPaid, buyer := Some(buyer))])
  {
  }

  lemma ListingPriced(t: Tables, id: Id, sha: string -> int)
    requires Good(t, sha) && id < |t.listings|
    ensures 0 < t.listings[id].price
  {
    hide Sum; hide Total; hide Sound; hide MarketsOk; hide ClaimsOk; hide EscrowsOk; hide ItemsOk; hide CashOk;
    hide TransfersOk; hide SalesOk;
  }

  /** The parts of a good database after a purchase. */
  lemma SaleKeepsGood(t: Tables, h: Floor, listings: seq<Listing>, sha: string -> int)
    requires Good(t, sha) && h == t.floor.(accounts := h.accounts, ledger := h.ledger)
    requires h.accounts.Keys == t.floor.accounts.Keys
    requires Sound(h, t.markets, -1) && CashOk(h, t.transfers) && ItemsOk(h, t.markets, t.escrows)
    requires TransfersOk(t.transfers, h.ledger, h.accounts.Keys)
    requires ListingsOk(listings, t.frames, h.accounts.Keys) && SalesOk(listings, h.ledger)
    ensures Good(t.(floor := h, listings := listings), sha)
  {
    hide Sum; hide Total; hide MarketsOk; hide ClaimsOk; hide EscrowsOk; hide ItemsOk; hide CashOk;
    hide TransfersOk; hide SalesOk; hide Sound; hide ListingsOk;
  }

  lemma GoodMoney(t: Tables, sha: string -> int)
    requires Good(t, sha)
    ensures BankOk(t.floor) && CashOk(t.floor, t.transfers) && ItemsOk(t.floor, t.markets, t.escrows)
    ensures TransfersOk(t.transfers, t.floor.ledger, t.floor.accounts.Keys) && Sound(t.floor, t.markets, -1)
    ensures ListingsOk(t.listings, t.frames, t.floor.accounts.Keys) && SalesOk(t.listings, t.floor.ledger)
  {
    hide Sum; hide Total; hide MarketsOk; hide ClaimsOk; hide EscrowsOk; hide ItemsOk; hide CashOk;
    hide TransfersOk; hide SalesOk; hide ListingsOk; hide Sound;
    SoundHasBank(t.floor, t.markets, -1);
  }

  /** A purchase moves money from the buyer to the seller, and binds the two entries to the listing. */
  lemma PurchaseKeepsGood(t: Tables, id: Id, buyer: Player, expected: int, sha: string -> int)
    requires Good(t, sha)
    ensures var r := Purchase(t, id, buyer, expected);
            Good(After(t, r), sha) && Money(After(t, r).floor) == Money(t.floor)
  {
    hide Good; hide Purchase; hide Money; hide Total; hide Sum; hide Move;
    var r := Purchase(t, id, buyer, expected);
    if r.Ok? {
      PurchaseFound(t, id, buyer, expected);
      ListingPriced(t, id, sha);
      PurchaseShape(t, id, buyer, expected, r.value);
      var g := Move(t.floor, buyer, -expected, FramePurchase, Some(id));
      PaidListingKeepsGood(t, g, r.value.floor, id, buyer, expected, sha);
    }
  }

  /** The two entries of a purchase, and its listing paid for. */
  lemma PaidListingKeepsGood(t: Tables, g: Floor, h: Floor, id: Id, buyer: Player, price: int, sha: string -> int)
    requires Good(t, sha) && id < |t.listings| && t.listings[id].status.ListingActive? && t.listings[id].price == price
    requires var l, f := t.listings[id], t.floor;
             && buyer != l.seller && buyer in f.accounts && l.seller in f.accounts
             && 0 < price <= f.accounts[buyer] && f.accounts[l.seller] + price <= INT64_MAX
             && g == Move(f, buyer, -price, FramePurchase, Some(id))
             && h == Move(g, l.seller, price, FrameSale, Some(id))
    ensures var paid := t.listings[id].(status := ListingPaid, buyer := Some(buyer));
            Good(t.(floor := h, listings := t.listings[id := paid]), sha) && Money(h) == Money(t.floor)
  {
    hide Good; hide BankOk; hide ItemsOk; hide CashOk; hide TransfersOk; hide SalesOk; hide Sound; hide Money;
    hide Posted; hide ListingsOk; hide Move; hide Sum; hide Total;
    var l, f := t.listings[id], t.floor;
    var paid, sold := Entry(buyer, -price, FramePurchase, Some(id)), Entry(l.seller, price, FrameSale, Some(id));
    GoodMoney(t, sha);
    PurchasePosts(f, buyer, l.seller, price, id);
    PurchaseMoves(f, g, h, paid, sold, t.markets, t.transfers, t.escrows);
    MoveKeepsKeys(f, g, h, buyer, l.seller, price, id);
    TransfersSurvive(t.transfers, f.ledger, h.ledger, f.accounts.Keys, h.accounts.Keys);
    ListingsAfterPurchase(t.listings, t.frames, f.accounts.Keys, id, buyer);
    SalesAfterPurchase(t.listings, id, buyer, f.ledger);
    SaleKeepsGood(t, h, t.listings[id := l.(status := ListingPaid, buyer := Some(buyer))], sha);
  }

  lemma MoveKeepsKeys(f: Floor, g: Floor, h: Floor, buyer: Player, seller: Player, price: int, id: Id)
    requires buyer in f.accounts && seller in f.accounts
    requires g == Move(f, buyer, -price, FramePurchase, Some(id)) && h == Move(g, seller, price, FrameSale, Some(id))
    ensures h.accounts.Keys == f.accounts.Keys
  {
  }

  lemma PurchaseFound(t: Tables, id: Id, buyer: Player, expected: int)
    requires Purchase(t, id, buyer, expected).Ok?
    ensures id < |t.listings|
  {
  }
}
