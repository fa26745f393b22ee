/** A reachable book whose best level holds more units than 32 bits can count. */
module OrderBookCases {
  import opened Sums
  import opened Domain
  import opened Matching
  import opened Settlement
  import opened MatchingLoops
  import opened Placement
  import opened Exchange
  import opened Invariants
  import opened Runs
  import opened OrderBooks

  /** A limit buy that no ask answers rests with all its units and its whole reserve. */
  lemma UnansweredBuyRests(f: Floor, markets: seq<Venue>, req: Request)
    requires PricedRows(f) && ValidOrder(req) && req.side.Buy? && req.kind.Limit?
    requires req.market < |markets| && markets[req.market].active
    requires req.player in f.accounts && req.price * req.quantity <= f.accounts[req.player]
    requires forall i :: 0 <= i < |f.orders| ==> f.orders[i].side.Buy?
    ensures var reserved := req.price * req.quantity;
            && 0 < reserved
            && PlaceBuy(f, markets, req)
               == Ok((f.(accounts := f.accounts[req.player := f.accounts[req.player] - reserved],
                         ledger := f.ledger + [Entry(req.player, -reserved, BuyOrderReserve, Some(|f.orders|))],
                         orders := f.orders + [NewOrder(req, reserved)]),
                      Execution(|f.orders|, req.quantity, 0, req.quantity, 0, f.accounts[req.player] - reserved)))
  {
    hide Select;
    SmallerProduct(req.price, 1, req.quantity);
    var reserved := req.price * req.quantity;
    assert BuyReserve(f, req) == Ok(reserved);
    var g := OpenBuy(f, req).value;
    var taker := |f.orders|;
    assert g.orders == f.orders + [NewOrder(req, reserved)];
    NoAsksSelected(g.orders, markets, MakerQuery(req, markets[req.market].book), |g.orders|);
    var done := CloseTaker(g, req, taker, Cursor(req.quantity, 0, 0), reserved);
    assert done.orders[taker] == NewOrder(req, reserved);
    assert done.orders == g.orders;
  }

  lemma {:induction false} NoAsksSelected(orders: seq<Order>, markets: seq<Venue>, q: Query, n: nat)
    requires q.side.Sell? && n <= |orders| && forall i :: 0 <= i < |orders| ==> orders[i].side.Buy?
    ensures Select(orders, markets, q, n) == []
  {
    if n > 0 { NoAsksSelected(orders, markets, q, n - 1); }
  }

  function Settings(): Config { Config(0, INT32_MAX) }

  function Dirt(): Item { Item("minecraft:dirt", 0, "") }

  function LargeBid(): Request { Request(0, "id-1", "Steve", Buy, Limit, 1, INT32_MAX) }

  /** Money, a market, and twice the same bid for as many units as one order may ask for. */
  function TwoLargeBids(): seq<Call>
  {
    [Call(Settings(), DoAddBalance("id-1", 2 * INT32_MAX)), Call(Settings(), DoActivate("block", Block, Dirt())),
     Call(Settings(), DoPlace(LargeBid())), Call(Settings(), DoPlace(LargeBid()))]
  }

  /** The database after the first two calls and `n` bids. */
  function Stage(sha: string -> int, n: nat): Tables
    requires n <= 2
  {
    var bid := Order(0, "id-1", Buy, Limit, 1, INT32_MAX, INT32_MAX, INT32_MAX, Open);
    Tables(Floor(map["id-1" := (2 - n) * INT32_MAX],
                 [Entry("id-1", 0, AccountOpened, None), Entry("id-1", 2 * INT32_MAX, AdminAdjustment, None)]
                 + (if n < 1 then [] else [Entry("id-1", -INT32_MAX, BuyOrderReserve, Some(0))])
                 + (if n < 2 then [] else [Entry("id-1", -INT32_MAX, BuyOrderReserve, Some(1))]),
                 if n == 0 then [] else if n == 1 then [bid] else [bid, bid], [], []),
           [Book(Dirt(), sha(Fingerprint(Dirt())))], [Venue(0, "block", Block, Dirt(), true, false)], map["block" := 0],
           [], [], [], [], map[])
  }

  lemma RunNext(calls: seq<Call>, n: nat, sha: string -> int)
    requires CallsOk(calls) && n < |calls|
    ensures Run(calls[..n + 1], sha) == Step(Run(calls[..n], sha), calls[n].cfg, sha, calls[n].action)
  {
    assert calls[..n + 1][..n] == calls[..n];
  }

  lemma MarketStage(sha: string -> int)
    requires CallsOk(TwoLargeBids())
    ensures Run(TwoLargeBids()[..2], sha) == Stage(sha, 0)
  {
    hide Good; hide Fingerprint;
    var calls := TwoLargeBids();
    assert Run(calls[..0], sha) == Empty();
    RunNext(calls, 0, sha);
    RunNext(calls, 1, sha);
    FundedStage(sha);
    ActivatedStage(sha);
    hide Run; hide Step;
  }

  /** One account with enough money. */
  function Funded(): Tables
  {
    Empty().(floor := Floor(map["id-1" := 2 * INT32_MAX],
                            [Entry("id-1", 0, AccountOpened, None),
                             Entry("id-1", 2 * INT32_MAX, AdminAdjustment, None)],
                            [], [], []))
  }

  lemma FundedStage(sha: string -> int)
    ensures Priced(Empty()) && Step(Empty(), Settings(), sha, DoAddBalance("id-1", 2 * INT32_MAX)) == Funded()
  {
    assert map[]["id-1" := 0]["id-1" := 2 * INT32_MAX] == map["id-1" := 2 * INT32_MAX];
    assert [] + [Entry("id-1", 0, AccountOpened, None)] + [Entry("id-1", 2 * INT32_MAX, AdminAdjustment, None)]
           == Funded().floor.ledger;
  }

  lemma ActivatedStage(sha: string -> int)
    ensures Priced(Funded()) && Step(Funded(), Settings(), sha, DoActivate("block", Block, Dirt())) == Stage(sha, 0)
  {
    hide Fingerprint;
    assert map[]["block" := 0] == map["block" := 0];
    assert Stage(sha, 0).floor.ledger == Funded().floor.ledger;
  }

  lemma BidStage(sha: string -> int, n: nat)
    requires n < 2
    ensures Priced(Stage(sha, n)) && Step(Stage(sha, n), Settings(), sha, DoPlace(LargeBid())) == Stage(sha, n + 1)
  {
    hide PlaceBuy; hide Fingerprint;
    var t := Stage(sha, n);
    assert LargeBid().price * LargeBid().quantity == INT32_MAX;
    assert Validate(Settings(), LargeBid()).None?;
    UnansweredBuyRests(t.floor, t.markets, LargeBid());
    assert t.floor.accounts["id-1" := (2 - n) * INT32_MAX - INT32_MAX] == Stage(sha, n + 1).floor.accounts;
  }

  /** A database this run reaches has a book that cannot be shown at any depth. */
  lemma LargeBookIsReachable(sha: string -> int, depth: nat)
    requires 0 < depth <= 50
    ensures CallsOk(TwoLargeBids()) && 0 < |Run(TwoLargeBids(), sha).markets|
    ensures OrderBookOf(Run(TwoLargeBids(), sha).floor, Run(TwoLargeBids(), sha).markets, 0, depth) == Err(OutOfRange)
  {
    hide Good; hide Step; hide Fingerprint; hide Run; hide OrderBookOf; hide Priced;
    RunEndsOversized(sha);
    StageIsOversized(sha, depth);
  }

  lemma RunEndsOversized(sha: string -> int)
    ensures CallsOk(TwoLargeBids()) && Run(TwoLargeBids(), sha) == Stage(sha, 2)
  {
    hide Good; hide Step; hide Stage; hide Fingerprint; hide Run; hide Priced;
    var calls := TwoLargeBids();
    MarketStage(sha);
    BidStage(sha, 0);
    BidStage(sha, 1);
    RunNext(calls, 2, sha);
    RunNext(calls, 3, sha);
    assert calls[..4] == calls;
  }

  lemma StageIsOversized(sha: string -> int, depth: nat)
    requires 0 < depth <= 50
    ensures OrderBookOf(Stage(sha, 2).floor, Stage(sha, 2).markets, 0, depth) == Err(OutOfRange)
  {
    hide Fingerprint;
    var t := Stage(sha, 2);
    var levels := Levels(t.floor.orders, t.markets, Buy, 0, 2);
    assert Levels(t.floor.orders, t.markets, Buy, 0, 1) == [Level(1, INT32_MAX)];
    assert levels == [Level(1, 2 * INT32_MAX)];
    assert !TotalsFit(FirstLevels(levels, depth)) by { assert FirstLevels(levels, depth)[0] == levels[0]; }
  }
}
