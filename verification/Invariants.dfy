/** What the whole database satisfies between any two transactions. */
module Invariants {
  import opened Sums
  import opened Domain
  import opened Matching
  import opened Settlement
  import opened MatchingLoops
  import opened Placement
  import opened Growth
  import opened Exchange

  // ----- markets and books -----

  /** A market that will never trade again. */
  predicate Retired(v: Venue) { !v.active && !v.reopenable }

  /** Of the markets with one target, kind and book all but one are retired. */
  ghost predicate OneLiveEach(markets: seq<Venue>)
  {
    forall m, n | 0 <= m < n < |markets| ::
      markets[m].target == markets[n].target && markets[m].kind == markets[n].kind && markets[m].book == markets[n].book
      ==> Retired(markets[m]) || Retired(markets[n])
  }

  /** A market is active exactly when its target is bound to it, and is never both active and reopenable. */
  ghost predicate BindingsOk(markets: seq<Venue>, bindings: map<string, Id>)
  {
    && (forall k :: k in bindings ==>
          bindings[k] < |markets| && markets[bindings[k]].target == k && markets[bindings[k]].active)
    && (forall m: nat :: m < |markets| ==>
          && (markets[m].active ==> markets[m].target in bindings && bindings[markets[m].target] == m)
          && !(markets[m].active && markets[m].reopenable))
    && OneLiveEach(markets)
  }

  /** A market has a target and an item, and trades in a book of that item. */
  ghost predicate ShelvesOk(books: seq<Book>, markets: seq<Venue>)
  {
    forall m: nat :: m < |markets| ==>
      && markets[m].book < |books| && books[markets[m].book].item == markets[m].item
      && markets[m].target != "" && markets[m].item.kind != ""
  }

  /** Books are told apart by the fingerprints of their items. */
  ghost predicate BooksOk(books: seq<Book>, sha: string -> int)
  {
    && (forall i: nat :: i < |books| ==> books[i].fingerprint == sha(Fingerprint(books[i].item)))
    && (forall i: nat, j: nat :: i < j < |books| ==> books[i].fingerprint != books[j].fingerprint)
  }

  ghost predicate MarketsOk(books: seq<Book>, markets: seq<Venue>, bindings: map<string, Id>, sha: string -> int)
  {
    BindingsOk(markets, bindings) && ShelvesOk(books, markets) && BooksOk(books, sha)
  }

  // ----- delivery claims -----

  function PreparedOf(d: Id): Claim -> int
  {
    (c: Claim) => if c.delivery == d && c.status.ClaimPrepared? then c.quantity else 0
  }

  function AppliedOf(d: Id): Claim -> int
  {
    (c: Claim) => if c.delivery == d && c.status.ClaimApplied? then c.applied else 0
  }

  predicate ClaimOk(c: Claim, deliveries: seq<Delivery>)
  {
    && c.delivery < |deliveries| && c.owner == deliveries[c.delivery].owner && 0 < c.quantity
    && match c.status
       case ClaimPrepared => c.applied == 0 && !c.cleaned
       case ClaimApplied => 0 < c.applied <= c.quantity
       case ClaimCanceled => c.applied == 0
  }

  /** A delivery reserves what its prepared claims hold and counts as claimed what was applied. */
  ghost predicate DeliveryOk(claims: seq<Claim>, d: Delivery, id: Id)
  {
    && d.reserved == Sum(claims, PreparedOf(id)) && d.claimed == Sum(claims, AppliedOf(id))
    && 0 <= d.reserved && 0 <= d.claimed && d.claimed + d.reserved <= d.quantity
  }

  ghost predicate ClaimsOk(claims: seq<Claim>, deliveries: seq<Delivery>)
  {
    && (forall c :: 0 <= c < |claims| ==> ClaimOk(claims[c], deliveries))
    && (forall d: nat :: d < |deliveries| ==> DeliveryOk(claims, deliveries[d], d))
  }

  // ----- sell escrows -----

  function ExcessIn(markets: seq<Venue>, b: Id): Escrow -> int
  {
    (e: Escrow) => if e.status.EscrowOrdered? && InBook(markets, e.market, b) then e.tagged - e.requested else 0
  }

  function ExcessOf(p: Player): Escrow -> int
  {
    (e: Escrow) => if e.status.EscrowOrdered? && e.owner == p then e.tagged - e.requested else 0
  }

  /** An escrow agrees with the order it became. */
  predicate EscrowOk(e: Escrow, orders: seq<Order>, keys: set<Player>, markets: nat)
  {
    && e.market < markets && e.owner in keys && 0 < e.requested <= INT32_MAX
    && (e.kind.Limit? ==> 0 < e.price && e.price * e.requested <= INT64_MAX)
    && (e.kind.Market? ==> e.price == 0)
    && (e.status.EscrowPrepared? ==> e.tagged == 0 && e.receipts == 0)
    && (e.status.EscrowTagged? || e.status.EscrowOrdered? ==> e.requested <= e.tagged && 0 < e.receipts)
    && (e.status.EscrowOrdered? <==> e.order.Some?)
    && (e.cleaned ==> e.status.EscrowOrdered? || e.status.EscrowCanceled?)
    && (e.order.Some? ==>
          && e.order.value < |orders|
          && var o := orders[e.order.value];
          o.side.Sell? && o.owner == e.owner && o.market == e.market && o.kind == e.kind && o.price == e.price
          && o.original == e.requested)
  }

  ghost predicate EscrowsOk(escrows: seq<Escrow>, orders: seq<Order>, keys: set<Player>, markets: nat)
  {
    && (forall e :: 0 <= e < |escrows| ==> EscrowOk(escrows[e], orders, keys, markets))
    && (forall d, e :: 0 <= d < e < |escrows| && escrows[d].order.Some? ==> escrows[d].order != escrows[e].order)
  }

  /** Items: everything in a book, and everything a player gave, came in by sell orders and escrows. */
  ghost predicate ItemsOk(f: Floor, markets: seq<Venue>, escrows: seq<Escrow>)
  {
    && (forall b :: Surplus(f, markets, b) == Sum(escrows, ExcessIn(markets, b)))
    && (forall p :: Undelivered(f, p) == 0)
    && (forall p :: Unaccounted(f, p) == -Sum(escrows, ExcessOf(p)))
  }

  // ----- money -----

  /** Money that entered or left a player's account other than by trading. */
  function Inflow(p: Player): Entry -> int
  {
    (e: Entry) => if e.player == p && !IsTrading(e.reason) then e.delta else 0
  }

  function Minted(): Entry -> int
  {
    (e: Entry) => if e.reason == AccountOpened || e.reason == AdminAdjustment then e.delta else 0
  }

  predicate IsTransferReason(r: LedgerReason)
  {
    r == UmoneyWithdrawReserved || r == UmoneyDeposit || r == UmoneyWithdrawRefund
  }

  function TransferEntries(i: Id): Entry -> int
  {
    (e: Entry) => if IsTransferReason(e.reason) && e.reference == Some(i) then e.delta else 0
  }

  /** What a transfer has done to its owner's exchange balance so far. */
  function NetOf(): Transfer -> int
  {
    (x: Transfer) =>
      if x.direction.Deposit? then (if x.status.TransferCompleted? then x.cents else 0)
      else (if x.status.TransferFailed? then 0 else -x.cents)
  }

  ghost predicate CashOk(f: Floor, transfers: seq<Transfer>)
  {
    && (forall p :: Position(f, p) == Sum(f.ledger, Inflow(p)))
    && Money(f) == Sum(f.ledger, Minted()) + Sum(transfers, NetOf())
  }

  ghost predicate TransfersOk(transfers: seq<Transfer>, ledger: seq<Entry>, keys: set<Player>)
  {
    && (forall i: nat :: i < |transfers| ==>
          && transfers[i].owner in keys && 0 < transfers[i].cents && 0 < transfers[i].units
          && Sum(ledger, TransferEntries(i)) == NetOf()(transfers[i]))
    && (forall k :: 0 <= k < |ledger| && IsTransferReason(ledger[k].reason) ==>
          ledger[k].reference.Some? && ledger[k].reference.value < |transfers|)
  }

  // ----- frame listings -----

  predicate Bound(s: ListingStatus) { s.ListingActive? || s.ListingPaid? || s.ListingDropped? }

  predicate PaidFor(s: ListingStatus) { s.ListingPaid? || s.ListingDropped? || s.ListingClaimed? }

  ghost predicate ListingsOk(listings: seq<Listing>, frames: map<string, Id>, keys: set<Player>)
  {
    && (forall k :: k in frames ==>
          frames[k] < |listings| && listings[frames[k]].target == k && Bound(listings[frames[k]].status))
    && (forall i: nat :: i < |listings| ==>
          && (Bound(listings[i].status) ==> listings[i].target in frames && frames[listings[i].target] == i)
          && 0 < listings[i].price && listings[i].seller in keys
          && (PaidFor(listings[i].status) <==> listings[i].buyer.Some?)
          && (listings[i].buyer.Some? ==>
                listings[i].buyer.value != listings[i].seller && listings[i].buyer.value in keys))
  }

  predicate IsFrameReason(r: LedgerReason) { r == FramePurchase || r == FrameSale }

  /** Counts the entries of one reason for one listing. */
  function SaleCount(r: LedgerReason, id: Id): Entry -> int
  {
    (e: Entry) => if e.reason == r && e.reference == Some(id) then 1 else 0
  }

  /** Counts the entries that are exactly the given one. */
  function EntryCount(x: Entry): Entry -> int { (e: Entry) => if e == x then 1 else 0 }

  /** A listing has one matching pair of ledger entries when it is paid for, and none before. */
  ghost predicate SaleOk(l: Listing, id: Id, ledger: seq<Entry>)
  {
    var n := if PaidFor(l.status) then 1 else 0;
    && Sum(ledger, SaleCount(FramePurchase, id)) == n && Sum(ledger, SaleCount(FrameSale, id)) == n
    && (l.buyer.Some? ==>
          && Sum(ledger, EntryCount(Entry(l.buyer.value, -l.price, FramePurchase, Some(id)))) == 1
          && Sum(ledger, EntryCount(Entry(l.seller, l.price, FrameSale, Some(id)))) == 1)
  }

  ghost predicate SalesOk(listings: seq<Listing>, ledger: seq<Entry>)
  {
    && (forall i: nat :: i < |listings| ==> SaleOk(listings[i], i, ledger))
    && (forall k :: 0 <= k < |ledger| && IsFrameReason(ledger[k].reason) ==>
          ledger[k].reference.Some? && ledger[k].reference.value < |listings|)
  }

  // ----- everything -----

  ghost predicate Good(t: Tables, sha: string -> int)
  {
    && Sound(t.floor, t.markets, -1)
    && MarketsOk(t.books, t.markets, t.bindings, sha)
    && ClaimsOk(t.claims, t.floor.deliveries)
    && EscrowsOk(t.escrows, t.floor.orders, t.floor.accounts.Keys, |t.markets|)
    && ItemsOk(t.floor, t.markets, t.escrows)
    && CashOk(t.floor, t.transfers)
    && TransfersOk(t.transfers, t.floor.ledger, t.floor.accounts.Keys)
    && ListingsOk(t.listings, t.frames, t.floor.accounts.Keys)
    && SalesOk(t.listings, t.floor.ledger)
  }

  /** The database starts out good. */
  lemma EmptyIsGood(sha: string -> int)
    ensures Good(Empty(), sha)
  {
    hide Sound; hide MarketsOk; hide ClaimsOk; hide EscrowsOk; hide ItemsOk; hide CashOk; hide TransfersOk;
    hide ListingsOk;
    hide SalesOk;
    EmptyIsSound();
    EmptyAddsUp();
    EmptyHasNoRows(sha);
    assert Empty().floor.accounts.Keys == {};
  }

  lemma EmptyHasNoRows(sha: string -> int)
    ensures MarketsOk([], [], map[], sha) && EscrowsOk([], [], {}, 0)
    ensures TransfersOk([], [], {}) && ListingsOk([], map[], {}) && SalesOk([], [])
  {
  }

  lemma EmptyIsSound()
    ensures Sound(Empty().floor, [], -1)
  {
    assert Total(Empty().floor.accounts) == 0;
  }

  lemma EmptyAddsUp()
    ensures ClaimsOk([], []) && ItemsOk(Empty().floor, [], []) && CashOk(Empty().floor, [])
  {
    assert Total(Empty().floor.accounts) == 0;
  }

  lemma GoodIsPriced(t: Tables, sha: string -> int)
    requires Good(t, sha)
    ensures Priced(t)
  {
    hide Sum; hide Total; hide MarketsOk; hide ClaimsOk; hide ItemsOk; hide CashOk; hide TransfersOk; hide ListingsOk;
    hide SalesOk; hide Sound;
    SoundIsPriced(t.floor, t.markets);
  }

  // ----- growth of the tables they depend on -----

  /** Orders keep their terms; rows may be added. */
  ghost predicate OrdersKept(orders: seq<Order>, now: seq<Order>)
  {
    |orders| <= |now| && forall i :: 0 <= i < |orders| ==> Weaker(orders[i], now[i])
  }

  lemma EscrowsSurvive(escrows: seq<Escrow>, orders: seq<Order>, now: seq<Order>, keys: set<Player>, more: set<Player>,
                       m: nat, n: nat)
    requires EscrowsOk(escrows, orders, keys, m) && OrdersKept(orders, now) && keys <= more && m <= n
    ensures EscrowsOk(escrows, now, more, n)
  {
    forall e | 0 <= e < |escrows|
      ensures EscrowOk(escrows[e], now, more, n)
    {
      assert EscrowOk(escrows[e], orders, keys, m);
    }
  }

  /** New deliveries nobody has claimed yet leave the claims right. */
  lemma ClaimsSurvive(claims: seq<Claim>, deliveries: seq<Delivery>, now: seq<Delivery>)
    requires ClaimsOk(claims, deliveries) && deliveries <= now
    requires forall d :: |deliveries| <= d < |now| ==>
               now[d].claimed == 0 && now[d].reserved == 0 && 0 < now[d].quantity
    ensures ClaimsOk(claims, now)
  {
    forall c | 0 <= c < |claims|
      ensures ClaimOk(claims[c], now)
    {
      assert ClaimOk(claims[c], deliveries);
    }
    forall d: nat | d < |now|
      ensures DeliveryOk(claims, now[d], d)
    {
      if d < |deliveries| {
        assert DeliveryOk(claims, deliveries[d], d);
      } else {
        forall c | 0 <= c < |claims|
          ensures PreparedOf(d)(claims[c]) == 0 && AppliedOf(d)(claims[c]) == 0
        {
          assert ClaimOk(claims[c], deliveries);
        }
        SumZero(claims, PreparedOf(d));
        SumZero(claims, AppliedOf(d));
      }
    }
  }

  /** Ledger entries that have nothing to do with a transfer leave the transfers right. */
  lemma TransfersSurvive(transfers: seq<Transfer>, ledger: seq<Entry>, now: seq<Entry>, keys: set<Player>,
                         more: set<Player>)
    requires TransfersOk(transfers, ledger, keys) && ledger <= now && keys <= more
    requires forall k :: |ledger| <= k < |now| ==> !IsTransferReason(now[k].reason)
    ensures TransfersOk(transfers, now, more)
  {
    forall i: nat | i < |transfers|
      ensures Sum(now, TransferEntries(i)) == NetOf()(transfers[i])
    {
      SumOverGrowth(ledger, now, TransferEntries(i));
    }
  }

  lemma SalesSurvive(listings: seq<Listing>, ledger: seq<Entry>, now: seq<Entry>)
    requires SalesOk(listings, ledger) && ledger <= now
    requires forall k :: |ledger| <= k < |now| ==> !IsFrameReason(now[k].reason)
    ensures SalesOk(listings, now)
  {
    hide Sum;
    forall i: nat | i < |listings|
      ensures SaleOk(listings[i], i, now)
    {
      assert SaleOk(listings[i], i, ledger);
      SumOverGrowth(ledger, now, SaleCount(FramePurchase, i));
      SumOverGrowth(ledger, now, SaleCount(FrameSale, i));
      var l := listings[i];
      if l.buyer.Some? {
        SumOverGrowth(ledger, now, EntryCount(Entry(l.buyer.value, -l.price, FramePurchase, Some(i))));
        SumOverGrowth(ledger, now, EntryCount(Entry(l.seller, l.price, FrameSale, Some(i))));
      }
    }
  }

  lemma ListingsSurvive(listings: seq<Listing>, frames: map<string, Id>, keys: set<Player>, more: set<Player>)
    requires ListingsOk(listings, frames, keys) && keys <= more
    ensures ListingsOk(listings, frames, more)
  {
  }

  lemma CashSurvives(f: Floor, g: Floor, transfers: seq<Transfer>, markets: seq<Venue>)
    requires CashOk(f, transfers) && SameHoldings(f, g, markets) && Grown(f, g)
    ensures CashOk(g, transfers)
  {
    hide Sum; hide Total; hide Money; hide Position; hide Surplus; hide Undelivered; hide Unaccounted;
    forall p
      ensures Position(g, p) == Sum(g.ledger, Inflow(p))
    {
      SumOverGrowth(f.ledger, g.ledger, Inflow(p));
    }
    SumOverGrowth(f.ledger, g.ledger, Minted());
  }

  lemma ItemsSurvive(f: Floor, g: Floor, markets: seq<Venue>, escrows: seq<Escrow>)
    requires ItemsOk(f, markets, escrows) && SameHoldings(f, g, markets)
    ensures ItemsOk(g, markets, escrows)
  {
    hide Sum; hide Total; hide Money; hide Position; hide Surplus; hide Undelivered; hide Unaccounted;
  }

  lemma NewDeliveriesAreUnclaimed(f: Floor, g: Floor, markets: seq<Venue>)
    requires Grown(f, g) && Sound(g, markets, -1)
    ensures f.deliveries <= g.deliveries
    ensures forall d :: |f.deliveries| <= d < |g.deliveries| ==>
              g.deliveries[d].claimed == 0 && g.deliveries[d].reserved == 0 && 0 < g.deliveries[d].quantity
  {
    hide Sum; hide Total;
  }

  lemma GrownEntries(f: Floor, g: Floor)
    requires Grown(f, g)
    ensures f.ledger <= g.ledger
    ensures forall k :: |f.ledger| <= k < |g.ledger| ==>
              !IsTransferReason(g.ledger[k].reason) && !IsFrameReason(g.ledger[k].reason)
  {
  }

  /** Any trading transaction that is sound, conserves holdings and only grows the tables keeps everything. */
  lemma TradingKeepsGood(t: Tables, g: Floor, sha: string -> int)
    requires Good(t, sha) && Sound(g, t.markets, -1) && SameHoldings(t.floor, g, t.markets) && Grown(t.floor, g)
    requires OrdersKept(t.floor.orders, g.orders)
    ensures Good(t.(floor := g), sha)
  {
    hide Sum; hide Total; hide Sound; hide MarketsOk; hide ClaimsOk; hide EscrowsOk; hide ItemsOk; hide CashOk;
    hide TransfersOk; hide ListingsOk; hide SalesOk; hide Grown; hide OrdersKept; hide Money; hide Position;
    hide Surplus; hide Undelivered; hide Unaccounted;
    var f := t.floor;
    EscrowsSurvive(t.escrows, f.orders, g.orders, f.accounts.Keys, g.accounts.Keys, |t.markets|, |t.markets|);
    NewDeliveriesAreUnclaimed(f, g, t.markets);
    ClaimsSurvive(t.claims, f.deliveries, g.deliveries);
    GrownEntries(f, g);
    TransfersSurvive(t.transfers, f.ledger, g.ledger, f.accounts.Keys, g.accounts.Keys);
    SalesSurvive(t.listings, f.ledger, g.ledger);
    CashSurvives(f, g, t.transfers, t.markets);
    ItemsSurvive(f, g, t.markets, t.escrows);
  }
}
