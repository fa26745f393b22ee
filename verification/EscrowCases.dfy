/**
 Two reachable sells the exchange refuses: one whose market is closed between the crash and the
 reconciliation, and one on an active market whose owner's balance is as large as it can be.
 */
module EscrowCases {
  import opened Sums
  import opened Domain
  import opened Matching
  import opened Settlement
  import opened Placement
  import Greedy
  import opened Proceeds
  import opened Solvency
  import opened Exchange
  import opened Invariants
  import opened Runs
  import opened Inventory
  import opened SellEscrow
  import opened EscrowRecovery
  import opened OrderBookCases

  const SELLER := "id-1"

  function Offer(): Request { Request(0, SELLER, "Steve", Sell, Limit, 1, 5) }

  /** Five units are marked and persisted as TAGGED; then the server stops and the market is closed. */
  function ClosedTooSoon(): seq<Event>
  {
    [Serve(Call(Settings(), DoActivate("block", Block, Dirt()))), Submit(Settings(), Offer(), [0]), Go, Go, Go, Crash,
     Serve(Call(Settings(), DoClose(0)))]
  }

  function Start(): Shop { Shop(Empty(), [Some(Stack(Dirt(), Plain, 5))], Idle) }

  /** The market alone, before anyone sells. */
  function Opening(sha: string -> int): Tables
  {
    Empty().(books := [Book(Dirt(), sha(Fingerprint(Dirt())))],
             markets := [Venue(0, "block", Block, Dirt(), true, false)],
             bindings := map["block" := 0])
  }

  /** The sell with its escrow in a given status. */
  function Scene(sha: string -> int, status: EscrowStatus, active: bool, mark: Mark, pc: Phase): Shop
  {
    var units, stacks := if status.EscrowTagged? then 5 else 0, if status.EscrowTagged? then 1 else 0;
    Shop(Tables(Floor(map[SELLER := 0], [Entry(SELLER, 0, AccountOpened, None)], [], [], []),
                [Book(Dirt(), sha(Fingerprint(Dirt())))], [Venue(0, "block", Block, Dirt(), active, !active)],
                if active then map["block" := 0] else map[], [],
                [Escrow(0, SELLER, "Steve", Limit, 1, 5, units, stacks, status, None, false)], [], [], map[]),
         [Some(Stack(Dirt(), mark, 5))], pc)
  }

  lemma StartIsKept(sha: string -> int)
    ensures Kept(Start(), SELLER, sha)
  {
    hide Good; hide Priced;
    EmptyIsGood(sha);
    GoodIsPriced(Empty(), sha);
  }

  lemma MarketOpens(sha: string -> int)
    ensures Priced(Empty()) && Advance(Start(), SELLER, ClosedTooSoon()[0], sha) == Start().(tables := Opening(sha))
  {
    hide Fingerprint;
    assert map[]["block" := 0] == map["block" := 0];
    assert Step(Empty(), Settings(), sha, DoActivate("block", Block, Dirt())) == Opening(sha);
  }

  lemma SellIsPrepared(sha: string -> int)
    ensures Priced(Opening(sha))
    ensures Advance(Start().(tables := Opening(sha)), SELLER, ClosedTooSoon()[1], sha)
            == Scene(sha, EscrowPrepared, true, Plain, Tagging(0, [0]))
  {
    hide Fingerprint; hide Step; hide Plan;
    RowIsPrepared(sha);
    StackIsPlanned();
  }

  lemma RowIsPrepared(sha: string -> int)
    ensures Priced(Opening(sha))
    ensures Step(Opening(sha), Settings(), sha, DoPrepareEscrow(Offer()))
            == Scene(sha, EscrowPrepared, true, Plain, Tagging(0, [0])).tables
  {
    hide Fingerprint;
    assert map[][SELLER := 0] == map[SELLER := 0];
    assert Validate(Settings(), Offer()).None?;
  }

  /** The one stack is the plan. */
  lemma StackIsPlanned()
    ensures Plan(Start().inv, Dirt(), 5, [0]) && Sum(Start().inv, SellableUnits(Dirt())) == 5
  {
    var inv := Start().inv;
    assert inv[..1] == inv;
    assert Sum(inv, SellableUnits(Dirt())) == 5;
    assert Units(inv, [0]) == 5;
  }

  lemma SlotIsMarked(sha: string -> int)
    ensures var w := Scene(sha, EscrowPrepared, true, Plain, Tagging(0, [0]));
            Priced(w.tables) && Row(w.tables, 0)
            && Take(w) == Scene(sha, EscrowPrepared, true, Selling(0), Tagging(0, []))
  {
    hide Fingerprint;
    assert [0][1..] == [];
    assert Take(Scene(sha, EscrowPrepared, true, Plain, Tagging(0, [0]))).inv
           == Scene(sha, EscrowPrepared, true, Selling(0), Tagging(0, [])).inv;
  }

  lemma SellIsTagged(sha: string -> int)
    ensures var w := Scene(sha, EscrowPrepared, true, Selling(0), Persisting(0));
            Priced(w.tables) && Row(w.tables, 0)
            && Take(w) == Scene(sha, EscrowTagged, true, Selling(0), Receipting(0, 0))
  {
    hide Fingerprint;
    var w := Scene(sha, EscrowPrepared, true, Selling(0), Persisting(0));
    assert Sum(w.inv, SellingUnits(0)) == 5 && Sum(w.inv, SellingStacks(0)) == 1;
  }

  lemma MarketCloses(sha: string -> int)
    ensures var w := Scene(sha, EscrowTagged, true, Selling(0), Idle);
            && Priced(w.tables)
            && Advance(w, SELLER, ClosedTooSoon()[6], sha) == Scene(sha, EscrowTagged, false, Selling(0), Idle)
  {
    hide Fingerprint;
    assert map["block" := 0] - {"block"} == map[];
  }

  lemma TaggingRuns(sha: string -> int)
    ensures Leads(Start(), SELLER, ClosedTooSoon(), 4, Scene(sha, EscrowPrepared, true, Selling(0), Persisting(0)), sha)
  {
    hide Leads; hide Kept; hide Priced; hide Step; hide Fingerprint; hide OpenEscrow; hide Write;
    StartIsKept(sha);
    LeadsNowhere(Start(), SELLER, ClosedTooSoon(), sha);
    MarketOpens(sha);
    SellIsPrepared(sha);
    SlotIsMarked(sha);
    var es, ready := ClosedTooSoon(), Start().(tables := Opening(sha));
    var tagging, tagged := Scene(sha, EscrowPrepared, true, Plain, Tagging(0, [0])),
                           Scene(sha, EscrowPrepared, true, Selling(0), Tagging(0, []));
    LeadsOn(Start(), SELLER, es, 0, Start(), ready, sha);
    LeadsOn(Start(), SELLER, es, 1, ready, tagging, sha);
    LeadsOn(Start(), SELLER, es, 2, tagging, tagged, sha);
    LeadsOn(Start(), SELLER, es, 3, tagged, tagged.(pc := Persisting(0)), sha);
  }

  lemma ClosingRuns(sha: string -> int)
    ensures Leads(Start(), SELLER, ClosedTooSoon(), 7, Scene(sha, EscrowTagged, false, Selling(0), Idle), sha)
  {
    hide Leads; hide Priced; hide Step; hide Fingerprint; hide Take;
    var es, taken := ClosedTooSoon(), Scene(sha, EscrowTagged, true, Selling(0), Receipting(0, 0));
    var stopped, closed := taken.(pc := Idle), Scene(sha, EscrowTagged, false, Selling(0), Idle);
    TaggingRuns(sha);
    SellIsTagged(sha);
    MarketCloses(sha);
    LeadsOn(Start(), SELLER, es, 4, Scene(sha, EscrowPrepared, true, Selling(0), Persisting(0)), taken, sha);
    LeadsOn(Start(), SELLER, es, 5, taken, stopped, sha);
    LeadsOn(Start(), SELLER, es, 6, stopped, closed, sha);
  }

  /** Reconciling it leaves it TAGGED: the five units are neither in the inventory nor offered for sale. */
  lemma RefusedSellStaysTagged(sha: string -> int)
    ensures Kept(Start(), SELLER, sha) && EventsOk(SELLER, ClosedTooSoon())
    ensures var w := Play(Start(), SELLER, ClosedTooSoon(), sha);
            && w.pc.Idle? && Kept(w.(pc := Begin(w, SELLER, 0)), SELLER, sha)
            && var v := Drive(w.(pc := Begin(w, SELLER, 0)), SELLER, sha);
               && 0 < |v.tables.escrows| && v.tables.escrows[0].status.EscrowTagged? && v.tables.floor.orders == []
               && v.inv == [ReceiptSlot(0, "")]
  {
    hide Kept; hide Leads; hide Play; hide EventsOk; hide Drive; hide Fingerprint; hide Settled;
    ClosingRuns(sha);
    LeadsToTheEnd(Start(), SELLER, ClosedTooSoon(), Scene(sha, EscrowTagged, false, Selling(0), Idle), sha);
    var w := Play(Start(), SELLER, ClosedTooSoon(), sha);
    ReconciliationFinishes(w, SELLER, 0, sha);
    ClosedSettles(w, Drive(w.(pc := Begin(w, SELLER, 0)), SELLER, sha), sha);
  }

  lemma ClosedSettles(w: Shop, v: Shop, sha: string -> int)
    requires w == Scene(sha, EscrowTagged, false, Selling(0), Idle) && Settled(w, v, 0)
    ensures 0 < |v.tables.escrows| && v.tables.escrows[0].status.EscrowTagged? && v.tables.floor.orders == []
    ensures v.inv == [ReceiptSlot(0, "")]
  {
    hide Sum; hide Fingerprint;
  }

  // ----- a full balance -----

  function Bid(): Request { Request(0, "id-2", "Alex", Buy, Limit, 1, 5) }

  /** A seller with the largest balance there is, and another player's bid for what is sold. */
  function FullPurse(): seq<Event>
  {
    [Serve(Call(Settings(), DoAddBalance(SELLER, INT64_MAX))), Serve(Call(Settings(), DoAddBalance("id-2", 5))),
     Serve(Call(Settings(), DoActivate("block", Block, Dirt()))), Serve(Call(Settings(), DoPlace(Bid()))),
     Submit(Settings(), Offer(), [0])]
  }

  /** The tables after the first `n` events, and the last. */
  function Purse(sha: string -> int, n: nat): Tables
    requires 0 < n <= 5
  {
    var market := n >= 3;
    Tables(Floor(if n == 1 then map[SELLER := INT64_MAX]
                 else map[SELLER := INT64_MAX, "id-2" := if n < 4 then 5 else 0],
                 [Entry(SELLER, 0, AccountOpened, None), Entry(SELLER, INT64_MAX, AdminAdjustment, None)]
                 + (if n < 2 then []
                    else [Entry("id-2", 0, AccountOpened, None), Entry("id-2", 5, AdminAdjustment, None)])
                 + (if n < 4 then [] else [Entry("id-2", -5, BuyOrderReserve, Some(0))]),
                 if n < 4 then [] else [Order(0, "id-2", Buy, Limit, 1, 5, 5, 5, Open)], [], []),
           if market then [Book(Dirt(), sha(Fingerprint(Dirt())))] else [],
           if market then [Venue(0, "block", Block, Dirt(), true, false)] else [],
           if market then map["block" := 0] else map[], [],
           if n < 5 then [] else [Escrow(0, SELLER, "Steve", Limit, 1, 5, 0, 0, EscrowPrepared, None, false)],
           [], [], map[])
  }

  lemma SellerIsPaidIn(sha: string -> int)
    ensures Priced(Empty()) && Step(Empty(), Settings(), sha, DoAddBalance(SELLER, INT64_MAX)) == Purse(sha, 1)
  {
    hide Fingerprint;
    assert map[][SELLER := 0][SELLER := INT64_MAX] == map[SELLER := INT64_MAX];
    assert Empty().floor.ledger + [Entry(SELLER, 0, AccountOpened, None)]
           + [Entry(SELLER, INT64_MAX, AdminAdjustment, None)]
           == Purse(sha, 1).floor.ledger;
  }

  lemma BidderIsPaidIn(sha: string -> int)
    ensures Priced(Purse(sha, 1)) && Step(Purse(sha, 1), Settings(), sha, DoAddBalance("id-2", 5)) == Purse(sha, 2)
  {
    hide Fingerprint;
    assert Purse(sha, 1).floor.accounts["id-2" := 0]["id-2" := 5] == Purse(sha, 2).floor.accounts;
    assert Purse(sha, 1).floor.ledger + [Entry("id-2", 0, AccountOpened, None)]
           + [Entry("id-2", 5, AdminAdjustment, None)]
           == Purse(sha, 2).floor.ledger;
  }

  lemma PurseMarketOpens(sha: string -> int)
    ensures Priced(Purse(sha, 2))
    ensures Step(Purse(sha, 2), Settings(), sha, DoActivate("block", Block, Dirt())) == Purse(sha, 3)
  {
    hide Fingerprint;
    assert map[]["block" := 0] == map["block" := 0];
    assert Purse(sha, 3).floor.ledger == Purse(sha, 2).floor.ledger;
  }

  lemma BidRests(sha: string -> int)
    ensures Priced(Purse(sha, 3)) && Step(Purse(sha, 3), Settings(), sha, DoPlace(Bid())) == Purse(sha, 4)
  {
    hide PlaceBuy; hide Fingerprint;
    var t := Purse(sha, 3);
    assert Validate(Settings(), Bid()).None?;
    UnansweredBuyRests(t.floor, t.markets, Bid());
    assert t.floor.accounts["id-2" := 0] == Purse(sha, 4).floor.accounts;
    assert t.floor.ledger + [Entry("id-2", -5, BuyOrderReserve, Some(0))] == Purse(sha, 4).floor.ledger;
  }

  lemma PurseIsPrepared(sha: string -> int)
    ensures Priced(Purse(sha, 4)) && Step(Purse(sha, 4), Settings(), sha, DoPrepareEscrow(Offer())) == Purse(sha, 5)
  {
    hide Fingerprint;
    assert Validate(Settings(), Offer()).None?;
  }

  /** The one bid pays five. */
  lemma BidPays(sha: string -> int)
    ensures var t := Purse(sha, 5); SellValue(t.floor, t.markets, EscrowRequest(t.escrows[0])) == 5
  {
    hide Fingerprint;
    var t := Purse(sha, 5);
    var q := MakerQuery(Offer(), 0);
    assert Select(t.floor.orders, t.markets, q, 0) == [];
    assert Select(t.floor.orders, t.markets, q, 1) == [0];
    var offers := Greedy.OffersOf(t.floor.orders, [0]);
    assert offers == [Greedy.Offer(1, 5)];
    assert Greedy.CheapestCost(offers[1..], 0) == 0;
  }

  lemma PurseRuns(sha: string -> int)
    ensures Leads(Start(), SELLER, FullPurse(), 4, Start().(tables := Purse(sha, 4)), sha)
  {
    hide Leads; hide Kept; hide Priced; hide Step; hide Fingerprint; hide Purse;
    var s, es := Start(), FullPurse();
    StartIsKept(sha);
    LeadsNowhere(s, SELLER, es, sha);
    SellerIsPaidIn(sha);
    BidderIsPaidIn(sha);
    PurseMarketOpens(sha);
    BidRests(sha);
    LeadsOn(s, SELLER, es, 0, s, s.(tables := Purse(sha, 1)), sha);
    LeadsOn(s, SELLER, es, 1, s.(tables := Purse(sha, 1)), s.(tables := Purse(sha, 2)), sha);
    LeadsOn(s, SELLER, es, 2, s.(tables := Purse(sha, 2)), s.(tables := Purse(sha, 3)), sha);
    LeadsOn(s, SELLER, es, 3, s.(tables := Purse(sha, 3)), s.(tables := Purse(sha, 4)), sha);
  }

  lemma PurseIsTagging(sha: string -> int)
    ensures Priced(Purse(sha, 4))
    ensures OpenEscrow(Start().(tables := Purse(sha, 4)), sha, Settings(), Offer(), [0])
            == Start().(tables := Purse(sha, 5), pc := Tagging(0, [0]))
  {
    hide Fingerprint; hide Step; hide Plan;
    PurseIsPrepared(sha);
    StackIsPlanned();
  }

  lemma PurseIsFull(sha: string -> int)
    ensures var t := Purse(sha, 5); t.markets[0].active && !Accepts(t, t.escrows[0])
  {
    hide Fingerprint; hide SellValue;
    BidPays(sha);
  }

  /**
   Driven to its end without any interruption, this sell stays TAGGED although its market is
   active and the bid is there: its proceeds do not fit the seller's balance.
   */
  lemma FullPurseStaysTagged(sha: string -> int)
    ensures Kept(Start(), SELLER, sha) && EventsOk(SELLER, FullPurse())
    ensures var v := Play(Start(), SELLER, FullPurse(), sha);
            && |v.tables.markets| == 1 && v.tables.markets[0].active && |v.tables.floor.orders| == 1
            && var d := Drive(v, SELLER, sha);
               && |d.tables.escrows| == 1 && d.tables.escrows[0].status.EscrowTagged?
               && d.tables.floor == v.tables.floor && d.inv == [ReceiptSlot(0, "")]
  {
    hide Kept; hide Leads; hide Play; hide EventsOk; hide Drive; hide Fingerprint; hide OpenEscrow; hide Accepts;
    hide Step; hide Priced;
    var s, w := Start(), Start().(tables := Purse(sha, 4));
    var v := w.(tables := Purse(sha, 5), pc := Tagging(0, [0]));
    PurseRuns(sha);
    PurseIsTagging(sha);
    LeadsOn(s, SELLER, FullPurse(), 4, w, v, sha);
    LeadsToTheEnd(s, SELLER, FullPurse(), v, sha);
    PurseIsFull(sha);
    PurseIsKept(w, sha);
    SubmissionFinishes(w, SELLER, Settings(), Offer(), [0], v, sha);
    assert Drive(v, SELLER, sha).inv == [ReceiptSlot(0, "")];
  }

  lemma PurseIsKept(w: Shop, sha: string -> int)
    requires Leads(Start(), SELLER, FullPurse(), 4, w, sha)
    ensures Kept(w, SELLER, sha)
  {
    hide Kept; hide EventOk;
  }
}
