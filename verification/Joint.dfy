/**
 One inventory for both: sells take stacks out of it and deliveries put stacks in, interleaved with
 each other, with crashes and with everybody else, and no unit is made or lost.
 */
module Joint {
  import opened Sums
  import opened Domain
  import opened Matching
  import opened Settlement
  import opened Exchange
  import opened Invariants
  import opened StepsMoney
  import opened StepsTrade
  import opened Runs
  import opened Inventory
  import EscrowStacks
  import S = SellEscrow
  import D = DeliveryClaims

  /** The database, the inventory, and where a sell or a delivery stands. */
  datatype World = World(tables: Tables, inv: seq<Slot>, pc: S.Phase, at: D.Stage)

  function ShopOf(w: World): S.Shop { S.Shop(w.tables, w.inv, w.pc) }

  function CounterOf(w: World): D.Counter { D.Counter(w.tables, w.inv, w.at) }

  /** A step of a sell, a step of a delivery, or one of the rest of the world. */
  datatype Event =
    | Offering(sell: S.Event)
    | Collecting(claim: D.Event)
    | Serve(call: Call)
    | Tidy(slots: seq<Slot>)
    | Crash

  predicate EventOk(p: Player, x: Event)
  {
    match x
    case Offering(e) => S.EventOk(p, e) && (e.Submit? || e.Resume? || e.Go?)
    case Collecting(e) => e.Prepare? || e.Hand? || e.Resume? || e.Go?
    case Serve(call) => ConfigOk(call.cfg)
    case _ => true
  }

  predicate Ready(w: World)
  {
    && Priced(w.tables) && (!w.pc.Idle? ==> S.Row(w.tables, w.pc.e))
    && (w.at.Untagging? || w.at.Discarding? ==> w.at.slot <= |w.inv|)
  }

  /** A slot whose stack carries a marker. */
  function Marked(): Slot -> Slot { (s: Slot) => if s.Some? && !s.value.mark.Plain? then s else None }

  function Free(item: Item): Slot -> int
  {
    (s: Slot) => if s.Some? && s.value.item == item && s.value.mark.Plain? then s.value.amount else 0
  }

  /** The player moves stacks, and splits and merges those without a marker. */
  ghost predicate Tidied(inv: seq<Slot>, now: seq<Slot>)
  {
    && multiset(Each(now, Marked())) == multiset(Each(inv, Marked()))
    && (forall item :: Sum(now, Free(item)) == Sum(inv, Free(item)))
    && forall i :: 0 <= i < |now| && now[i].Some? ==> 0 < now[i].value.amount
  }

  /** The player's sells and deliveries take turns; a crash stops whichever is under way. */
  ghost function Advance(w: World, p: Player, x: Event, sha: string -> int): World
    requires Ready(w)
  {
    match x
    case Offering(e) =>
      if !w.at.Idle? then w
      else
        var s := S.Advance(ShopOf(w), p, e, sha);
        w.(tables := s.tables, inv := s.inv, pc := s.pc)
    case Collecting(e) =>
      if !w.pc.Idle? then w
      else
        var c := D.Advance(CounterOf(w), p, e, sha);
        w.(tables := c.tables, inv := c.inv, at := c.at)
    case Serve(call) =>
      if S.Others(w.tables, p, call.action) && D.Others(w.tables, p, call.action) then
        w.(tables := Step(w.tables, call.cfg, sha, call.action))
      else w
    case Tidy(slots) => if w.pc.Idle? && w.at.Idle? && Tidied(w.inv, slots) then w.(inv := slots) else w
    case Crash => w.(pc := S.Idle, at := D.Idle)
  }

  ghost predicate Kept(w: World, p: Player, sha: string -> int)
  {
    S.Kept(ShopOf(w), p, sha) && D.Kept(CounterOf(w), p, sha)
  }

  // ----- the units of an item -----

  /** Tagged units the database counts as handed out. */
  function Delivered(t: Tables, item: Item): Slot -> int
  {
    (s: Slot) =>
      if s.Some? && s.value.item == item && s.value.mark.Claimed? && s.value.mark.id < |t.claims|
         && t.claims[s.value.mark.id].status.ClaimApplied? then s.value.amount
      else 0
  }

  /** Units marked for a sell that is still PREPARED. */
  function Offered(t: Tables, item: Item): Slot -> int
  {
    (s: Slot) =>
      if s.Some? && s.value.item == item && s.value.mark.Selling? && s.value.mark.id < |t.escrows|
         && t.escrows[s.value.mark.id].status.EscrowPrepared? then s.value.amount
      else 0
  }

  function HandedOut(t: Tables, p: Player, item: Item): int
  {
    Sum(t.floor.deliveries, D.HandedOut(t.markets, p, item))
  }

  function Sold(t: Tables, p: Player, item: Item): int { Sum(t.escrows, S.InEscrow(t.markets, p, item)) }

  /** Units in the inventory and units sold, less those that deliveries brought. */
  ghost function Stock(w: World, p: Player, item: Item): int
  {
    Sum(w.inv, Free(item)) + Sum(w.inv, Offered(w.tables, item)) + Sum(w.inv, Delivered(w.tables, item))
    + Sold(w.tables, p, item) - HandedOut(w.tables, p, item)
  }

  /** The sell's view and the delivery's view of it. */
  lemma TwoViews(w: World, p: Player, item: Item)
    ensures Stock(w, p, item)
            == S.Holding(ShopOf(w), p, item) + Sum(w.inv, Delivered(w.tables, item)) - HandedOut(w.tables, p, item)
    ensures Stock(w, p, item)
            == D.Unexplained(CounterOf(w), p, item) + Sum(w.inv, Offered(w.tables, item)) + Sold(w.tables, p, item)
  {
    hide Sum;
    SumSplit(w.inv, S.InHand(w.tables, item), Free(item), Offered(w.tables, item));
    SumSplit(w.inv, D.InHand(w.tables, item), Free(item), Delivered(w.tables, item));
  }

  // ----- what one side's steps leave of the other -----

  lemma {:induction false} SumAlike<T>(s: seq<T>, r: seq<T>, f: T -> int, g: T -> int)
    requires |s| == |r| && forall i :: 0 <= i < |s| ==> f(s[i]) == g(r[i])
    ensures Sum(s, f) == Sum(r, g)
  {
    if s != [] {
      assert forall i :: 0 <= i < |s| - 1 ==> s[..|s| - 1][i] == s[i] && r[..|s| - 1][i] == r[i];
      SumAlike(s[..|s| - 1], r[..|s| - 1], f, g);
    }
  }

  /** Slots changed only where no delivery's tag is or comes. */
  predicate TagsStay(inv: seq<Slot>, now: seq<Slot>)
  {
    |now| == |inv|
    && forall i :: 0 <= i < |inv| ==>
         now[i] == inv[i]
         || ((inv[i].Some? ==> !inv[i].value.mark.Claimed?)
             && (now[i].Some? ==> !now[i].value.mark.Claimed? && 0 < now[i].value.amount))
  }

  /** Slots changed only where no sell's mark or receipt is or comes. */
  predicate MarksStay(inv: seq<Slot>, now: seq<Slot>)
  {
    |now| == |inv|
    && forall i :: 0 <= i < |inv| ==>
         now[i] == inv[i]
         || ((inv[i].Some? ==> !inv[i].value.mark.Selling? && !inv[i].value.mark.Receipt?)
             && (now[i].Some? ==>
                   !now[i].value.mark.Selling? && !now[i].value.mark.Receipt? && 0 < now[i].value.amount))
  }

  lemma ClaimsStay(w: World, u: Tables, now: seq<Slot>, p: Player, item: Item, sha: string -> int)
    requires D.Kept(CounterOf(w), p, sha) && w.at.Idle? && TagsStay(w.inv, now) && D.MineUntouched(w.tables, u, p)
    requires Good(u, sha) && Priced(u)
    requires forall d :: 0 <= d < |w.tables.floor.deliveries| ==>
               w.tables.floor.deliveries[d].market < |w.tables.markets|
    ensures D.Kept(D.Counter(u, now, w.at), p, sha)
    ensures Sum(now, Delivered(u, item)) == Sum(w.inv, Delivered(w.tables, item))
    ensures HandedOut(u, p, item) == HandedOut(w.tables, p, item)
  {
    hide Sum; hide Total; hide Good; hide Priced;
    var t := w.tables;
    forall i | 0 <= i < |now|
      ensures D.SlotOk(u, p, now[i]) && Delivered(u, item)(now[i]) == Delivered(t, item)(w.inv[i])
    {
      assert D.SlotOk(t, p, w.inv[i]);
    }
    SumAlike(now, w.inv, Delivered(u, item), Delivered(t, item));
    forall c: nat | c < |u.claims| && u.claims[c].owner == p && u.claims[c].status.ClaimPrepared?
      ensures Sum(now, ClaimedUnits(c)) <= u.claims[c].quantity
    {
      SumAlike(now, w.inv, ClaimedUnits(c), ClaimedUnits(c));
    }
    D.SumOfMine(t.floor.deliveries, u.floor.deliveries, D.HandedOut(t.markets, p, item),
                D.HandedOut(u.markets, p, item));
  }

  lemma SellsStay(w: World, u: Tables, now: seq<Slot>, p: Player, item: Item, sha: string -> int)
    requires S.Kept(ShopOf(w), p, sha) && w.pc.Idle? && MarksStay(w.inv, now) && S.MineKept(w.tables, u, p)
    requires Good(u, sha) && Priced(u) && S.AllRows(w.tables)
    ensures S.Kept(S.Shop(u, now, w.pc), p, sha)
    ensures Sum(now, Offered(u, item)) == Sum(w.inv, Offered(w.tables, item))
    ensures Sold(u, p, item) == Sold(w.tables, p, item)
  {
    hide Sum; hide Total; hide Good; hide Priced;
    var t := w.tables;
    forall i | 0 <= i < |now|
      ensures S.SlotOk(u, p, now[i]) && Offered(u, item)(now[i]) == Offered(t, item)(w.inv[i])
    {
      assert S.SlotOk(t, p, w.inv[i]);
    }
    SumAlike(now, w.inv, Offered(u, item), Offered(t, item));
    forall e: nat | S.Row(u, e) && u.escrows[e].owner == p && u.escrows[e].status.EscrowTagged?
      ensures Sum(now, SellingStacks(e)) + Sum(now, ReceiptUnits(e)) == u.escrows[e].receipts
    {
      assert S.Row(t, e);
      SumAlike(now, w.inv, SellingStacks(e), SellingStacks(e));
      SumAlike(now, w.inv, ReceiptUnits(e), ReceiptUnits(e));
    }
    forall e: nat | e < |t.escrows|
      ensures S.InEscrow(u.markets, p, item)(u.escrows[e]) == S.InEscrow(t.markets, p, item)(t.escrows[e])
    {
      assert S.Row(t, e);
    }
    S.SumOfMine(t.escrows, u.escrows, S.InEscrow(t.markets, p, item), S.InEscrow(u.markets, p, item));
  }

  // ----- steps of a sell -----

  function AnyConfig(): Config { Config(0, INT32_MAX) }

  lemma SellWritesNoTag(w: World, p: Player, e: S.Event, sha: string -> int)
    requires S.Kept(ShopOf(w), p, sha) && (e.Submit? || e.Resume? || e.Go?)
    ensures Priced(w.tables) && (!w.pc.Idle? ==> S.Row(w.tables, w.pc.e))
    ensures TagsStay(w.inv, S.Advance(ShopOf(w), p, e, sha).inv)
  {
    hide Sum; hide Total; hide Good; hide Priced; hide S.StacksOk; hide Step; hide Plan; hide ExecuteEscrow;
    hide MarkTagged; hide CleanEscrow; hide CancelEscrow;
    if e.Go? && S.Write(ShopOf(w)).Some? {
      var (i, _) := S.Write(ShopOf(w)).value;
      assert S.SlotOk(w.tables, p, w.inv[i]);
    }
  }

  /** The transaction of a sell's step is an operation of the service, or there is none. */
  lemma SellIsServed(w: World, p: Player, e: S.Event, sha: string -> int)
    requires S.Kept(ShopOf(w), p, sha) && S.EventOk(p, e) && (e.Submit? || e.Resume? || e.Go?)
    ensures Priced(w.tables) && (!w.pc.Idle? ==> S.Row(w.tables, w.pc.e))
    ensures D.MineUntouched(w.tables, S.Advance(ShopOf(w), p, e, sha).tables, p)
  {
    hide Sum; hide Total; hide Good; hide Priced; hide S.StacksOk; hide S.SlotsOk; hide Step; hide Plan;
    hide ExecuteEscrow;
    hide MarkTagged; hide CleanEscrow; hide CancelEscrow; hide D.MineUntouched;
    var t, pc := w.tables, w.pc;
    Unchanged(t, p);
    match e
    case Submit(cfg, req, _) => D.OthersLeaveMine(t, cfg, sha, DoPrepareEscrow(req), p);
    case Go =>
      if !pc.Idle? {
        var units, stacks := S.MarkedUnits(ShopOf(w), pc.e), Sum(w.inv, SellingStacks(pc.e));
        TransactionsAreSteps(t, pc.e, units, stacks, sha);
        D.OthersLeaveMine(t, AnyConfig(), sha, DoMarkTagged(pc.e, units, stacks), p);
        D.OthersLeaveMine(t, AnyConfig(), sha, DoExecuteEscrow(pc.e), p);
        D.OthersLeaveMine(t, AnyConfig(), sha, DoCleanEscrow(pc.e), p);
        D.OthersLeaveMine(t, AnyConfig(), sha, DoCancelEscrow(pc.e), p);
      }
    case _ =>
  }

  lemma Unchanged(t: Tables, p: Player)
    ensures D.MineUntouched(t, t, p) && S.MineKept(t, t, p)
  {
  }

  lemma TransactionsAreSteps(t: Tables, e: Id, tagged: int, receipts: int, sha: string -> int)
    requires Priced(t)
    ensures Step(t, AnyConfig(), sha, DoMarkTagged(e, tagged, receipts)) == After(t, MarkTagged(t, e, tagged, receipts))
    ensures Step(t, AnyConfig(), sha, DoExecuteEscrow(e)) == AfterPair(t, ExecuteEscrow(t, e))
    ensures Step(t, AnyConfig(), sha, DoCleanEscrow(e)) == After(t, CleanEscrow(t, e))
    ensures Step(t, AnyConfig(), sha, DoCancelEscrow(e)) == After(t, CancelEscrow(t, e))
  {
    hide ExecuteEscrow; hide MarkTagged; hide CleanEscrow; hide CancelEscrow; hide Priced; hide Step;
    MarkingIsAStep(t, e, tagged, receipts, sha);
    ExecutingIsAStep(t, e, sha);
    EndingIsAStep(t, e, sha);
  }

  lemma MarkingIsAStep(t: Tables, e: Id, tagged: int, receipts: int, sha: string -> int)
    requires Priced(t)
    ensures Step(t, AnyConfig(), sha, DoMarkTagged(e, tagged, receipts)) == After(t, MarkTagged(t, e, tagged, receipts))
  {
    hide MarkTagged; hide PricedRows;
  }

  lemma ExecutingIsAStep(t: Tables, e: Id, sha: string -> int)
    requires Priced(t)
    ensures Step(t, AnyConfig(), sha, DoExecuteEscrow(e)) == AfterPair(t, ExecuteEscrow(t, e))
  {
    hide ExecuteEscrow; hide PricedRows;
  }

  lemma EndingIsAStep(t: Tables, e: Id, sha: string -> int)
    requires Priced(t)
    ensures Step(t, AnyConfig(), sha, DoCleanEscrow(e)) == After(t, CleanEscrow(t, e))
    ensures Step(t, AnyConfig(), sha, DoCancelEscrow(e)) == After(t, CancelEscrow(t, e))
  {
    hide CleanEscrow; hide CancelEscrow; hide PricedRows;
  }

  lemma SellKeeps(w: World, p: Player, e: S.Event, item: Item, sha: string -> int)
    requires Kept(w, p, sha) && EventOk(p, Offering(e)) && Ready(w)
    ensures var v := Advance(w, p, Offering(e), sha);
            Kept(v, p, sha) && Stock(v, p, item) == Stock(w, p, item)
  {
    hide Sum; hide Total; hide Good; hide Priced; hide S.Kept; hide D.Kept; hide S.Advance; hide Stock;
    hide D.MineUntouched;
    hide TagsStay; hide S.Holding;
    if w.at.Idle? {
      var v := Advance(w, p, Offering(e), sha);
      S.AdvanceKeeps(ShopOf(w), p, e, sha);
      S.AdvanceConserves(ShopOf(w), p, e, item, sha);
      SellWritesNoTag(w, p, e, sha);
      SellIsServed(w, p, e, sha);
      GoodShop(w, p, sha);
      GoodShop(v, p, sha);
      D.DeliveriesHaveMarkets(w.tables, sha);
      ClaimsStay(w, v.tables, v.inv, p, item, sha);
      TwoViews(w, p, item);
      TwoViews(v, p, item);
    }
  }

  lemma GoodShop(w: World, p: Player, sha: string -> int)
    requires S.Kept(ShopOf(w), p, sha)
    ensures Good(w.tables, sha) && Priced(w.tables)
  {
    hide Good; hide Priced; hide S.SlotsOk; hide S.StacksOk; hide S.PhaseOk;
  }

  // ----- steps of a delivery -----

  lemma ClaimWritesNoMark(w: World, p: Player, e: D.Event, sha: string -> int)
    requires D.Kept(CounterOf(w), p, sha) && (e.Prepare? || e.Hand? || e.Resume? || e.Go?)
    ensures Priced(w.tables) && (w.at.Untagging? || w.at.Discarding? ==> w.at.slot <= |w.inv|)
    ensures MarksStay(w.inv, D.Advance(CounterOf(w), p, e, sha).inv)
  {
    hide Sum; hide Total; hide Good; hide Priced; hide D.UnitsOk; hide CompleteClaim; hide CleanClaim;
    hide PrepareClaim;
    match e {
      case Hand(i, _) => if i < |w.inv| { assert D.SlotOk(w.tables, p, w.inv[i]); }
      case Go =>
        if (w.at.Untagging? || w.at.Discarding?) && w.at.slot < |w.inv| {
          assert D.SlotOk(w.tables, p, w.inv[w.at.slot]);
        }
      case _ =>
    }
  }

  lemma ClaimIsServed(w: World, p: Player, e: D.Event, sha: string -> int)
    requires D.Kept(CounterOf(w), p, sha) && (e.Prepare? || e.Hand? || e.Resume? || e.Go?)
    ensures Priced(w.tables) && (w.at.Untagging? || w.at.Discarding? ==> w.at.slot <= |w.inv|)
    ensures S.MineKept(w.tables, D.Advance(CounterOf(w), p, e, sha).tables, p)
  {
    hide Sum; hide Total; hide Good; hide Priced; hide D.UnitsOk; hide D.SlotsOk; hide CompleteClaim; hide CleanClaim;
    hide PrepareClaim; hide Step; hide S.MineKept;
    var t := w.tables;
    Unchanged(t, p);
    match e
    case Prepare(d, quantity) =>
      ClaimTransactionsAreSteps(t, d, p, quantity, 0, 0, sha);
      S.OthersKeepMine(t, AnyConfig(), sha, DoPrepareClaim(d, p, quantity), p);
    case Go =>
      match w.at {
        case Completing(c, delivered) =>
          ClaimTransactionsAreSteps(t, 0, p, 0, c, delivered, sha);
          S.OthersKeepMine(t, AnyConfig(), sha, DoCompleteClaim(c, delivered), p);
        case Cleaning(c) =>
          ClaimTransactionsAreSteps(t, 0, p, 0, c, 0, sha);
          S.OthersKeepMine(t, AnyConfig(), sha, DoCleanClaim(c), p);
        case _ =>
      }
    case _ =>
  }

  lemma ClaimTransactionsAreSteps(t: Tables, d: Id, p: Player, quantity: int, c: Id, delivered: int, sha: string -> int)
    requires Priced(t)
    ensures Step(t, AnyConfig(), sha, DoPrepareClaim(d, p, quantity)) == AfterPair(t, PrepareClaim(t, d, p, quantity))
    ensures Step(t, AnyConfig(), sha, DoCompleteClaim(c, delivered)) == After(t, CompleteClaim(t, c, delivered))
    ensures Step(t, AnyConfig(), sha, DoCleanClaim(c)) == After(t, CleanClaim(t, c))
  {
    hide CompleteClaim; hide CleanClaim; hide PrepareClaim; hide PricedRows;
  }

  lemma GoodCounter(w: World, p: Player, sha: string -> int)
    requires D.Kept(CounterOf(w), p, sha)
    ensures Good(w.tables, sha) && Priced(w.tables)
  {
    hide Good; hide Priced; hide D.SlotsOk; hide D.UnitsOk; hide D.StageOk;
  }

  lemma ClaimKeeps(w: World, p: Player, e: D.Event, item: Item, sha: string -> int)
    requires Kept(w, p, sha) && EventOk(p, Collecting(e)) && Ready(w)
    ensures var v := Advance(w, p, Collecting(e), sha);
            Kept(v, p, sha) && Stock(v, p, item) == Stock(w, p, item)
  {
    hide Sum; hide Total; hide Good; hide Priced; hide S.Kept; hide D.Kept; hide D.Advance; hide Stock; hide S.MineKept;
    hide MarksStay; hide D.Unexplained;
    if w.pc.Idle? {
      var v := Advance(w, p, Collecting(e), sha);
      D.AdvanceKeeps(CounterOf(w), p, e, item, sha);
      ClaimWritesNoMark(w, p, e, sha);
      ClaimIsServed(w, p, e, sha);
      GoodCounter(w, p, sha);
      GoodCounter(v, p, sha);
      S.RowsExist(w.tables, sha);
      SellsStay(w, v.tables, v.inv, p, item, sha);
      TwoViews(w, p, item);
      TwoViews(v, p, item);
    }
  }

  // ----- the rest -----

  lemma ServeKeeps(w: World, p: Player, call: Call, item: Item, sha: string -> int)
    requires Kept(w, p, sha) && ConfigOk(call.cfg) && Ready(w)
    ensures var v := Advance(w, p, Serve(call), sha);
            Kept(v, p, sha) && Stock(v, p, item) == Stock(w, p, item)
  {
    hide Sum; hide Total; hide Good; hide Priced; hide S.Kept; hide D.Kept; hide Stock; hide D.MineUntouched; hide Step;
    hide S.Holding; hide D.Unexplained; hide S.Others; hide D.Others;
    if S.Others(w.tables, p, call.action) && D.Others(w.tables, p, call.action) {
      var v := Advance(w, p, Serve(call), sha);
      S.AdvanceKeeps(ShopOf(w), p, S.Serve(call), sha);
      S.AdvanceConserves(ShopOf(w), p, S.Serve(call), item, sha);
      D.AdvanceKeeps(CounterOf(w), p, D.Serve(call), item, sha);
      GoodShop(w, p, sha);
      GoodShop(v, p, sha);
      D.OthersLeaveMine(w.tables, call.cfg, sha, call.action, p);
      D.DeliveriesHaveMarkets(w.tables, sha);
      Stopped(w, p, sha);
      NoTagWritten(w.inv);
      ClaimsStay(w.(at := D.Idle), v.tables, v.inv, p, item, sha);
      TwoViews(w, p, item);
      TwoViews(v, p, item);
    }
  }

  lemma NoTagWritten(inv: seq<Slot>)
    ensures TagsStay(inv, inv)
  {
  }

  /** A crash may come at any time. */
  lemma Stopped(w: World, p: Player, sha: string -> int)
    requires Kept(w, p, sha)
    ensures Kept(w.(at := D.Idle), p, sha) && Kept(w.(pc := S.Idle, at := D.Idle), p, sha)
  {
    hide Sum; hide Total; hide Good; hide Priced; hide S.SlotsOk; hide S.StacksOk; hide D.SlotsOk; hide D.UnitsOk;
  }

  /** Splitting a stack in two, or merging two, is tidying up. */
  lemma SplitIsTidy(inv: seq<Slot>, i: nat, j: nat, units: int)
    requires i < |inv| && j < |inv| && i != j && inv[j].None?
    requires forall k :: 0 <= k < |inv| && inv[k].Some? ==> 0 < inv[k].value.amount
    requires inv[i].Some? && inv[i].value.mark.Plain? && 0 < units < inv[i].value.amount
    ensures var x := inv[i].value;
            var now := inv[i := Some(x.(amount := x.amount - units))][j := Some(x.(amount := units))];
            Tidied(inv, now) && Tidied(now, inv)
  {
    hide Sum;
    var x := inv[i].value;
    var less := inv[i := Some(x.(amount := x.amount - units))];
    var now := less[j := Some(x.(amount := units))];
    assert Each(now, Marked()) == Each(inv, Marked());
    forall item
      ensures Sum(now, Free(item)) == Sum(inv, Free(item))
    {
      SumUpdate(inv, i, Some(x.(amount := x.amount - units)), Free(item));
      SumUpdate(less, j, Some(x.(amount := units)), Free(item));
    }
  }

  /** Moving stacks is tidying up. */
  lemma MoveIsTidy(inv: seq<Slot>, now: seq<Slot>)
    requires multiset(now) == multiset(inv) && forall k :: 0 <= k < |inv| && inv[k].Some? ==> 0 < inv[k].value.amount
    ensures Tidied(inv, now)
  {
    hide Sum;
    EscrowStacks.EachPermuted(now, inv, Marked());
    forall item
      ensures Sum(now, Free(item)) == Sum(inv, Free(item))
    {
      SumPermuted(now, inv, Free(item));
    }
    forall i | 0 <= i < |now| && now[i].Some?
      ensures 0 < now[i].value.amount
    {
      assert now[i] in multiset(now) && now[i] in multiset(inv);
      var j :| 0 <= j < |inv| && inv[j] == now[i];
    }
  }

  /** What only marked stacks weigh does not change by tidying up. */
  lemma MarkedWeight(inv: seq<Slot>, now: seq<Slot>, f: Slot -> int)
    requires Tidied(inv, now)
    requires f(None) == 0 && forall s: Slot :: s.Some? && s.value.mark.Plain? ==> f(s) == 0
    ensures Sum(now, f) == Sum(inv, f)
  {
    hide Sum;
    SumAlike(now, Each(now, Marked()), f, f);
    SumAlike(inv, Each(inv, Marked()), f, f);
    SumPermuted(Each(now, Marked()), Each(inv, Marked()), f);
  }

  /** A marked stack was there before. */
  lemma MarkedWasThere(inv: seq<Slot>, now: seq<Slot>, i: nat) returns (j: nat)
    requires Tidied(inv, now) && i < |now| && now[i].Some? && !now[i].value.mark.Plain?
    ensures j < |inv| && inv[j] == now[i]
  {
    hide Sum;
    var marked := Each(now, Marked());
    assert marked[i] == now[i] && marked[i] in multiset(marked);
    assert now[i] in multiset(Each(inv, Marked()));
    j :| 0 <= j < |inv| && Each(inv, Marked())[j] == now[i];
  }

  lemma TidySlots(w: World, p: Player, now: seq<Slot>)
    requires S.SlotsOk(w.tables, p, w.inv) && D.SlotsOk(w.tables, p, w.inv) && Tidied(w.inv, now)
    ensures S.SlotsOk(w.tables, p, now) && D.SlotsOk(w.tables, p, now)
  {
    forall i: nat | i < |now|
      ensures S.SlotOk(w.tables, p, now[i]) && D.SlotOk(w.tables, p, now[i])
    {
      if now[i].Some? && !now[i].value.mark.Plain? {
        var j := MarkedWasThere(w.inv, now, i);
        assert S.SlotOk(w.tables, p, w.inv[j]) && D.SlotOk(w.tables, p, w.inv[j]);
      }
    }
  }

  lemma TidyCounts(w: World, p: Player, now: seq<Slot>)
    requires S.StacksOk(w.tables, p, w.inv) && D.UnitsOk(w.tables, p, w.inv) && Tidied(w.inv, now)
    ensures S.StacksOk(w.tables, p, now) && D.UnitsOk(w.tables, p, now)
  {
    hide Sum; hide Tidied;
    var t := w.tables;
    forall e: nat | S.Row(t, e) && t.escrows[e].owner == p && t.escrows[e].status.EscrowTagged?
      ensures Sum(now, SellingStacks(e)) + Sum(now, ReceiptUnits(e)) == t.escrows[e].receipts
    {
      MarkedWeight(w.inv, now, SellingStacks(e));
      MarkedWeight(w.inv, now, ReceiptUnits(e));
    }
    forall c: nat | c < |t.claims| && t.claims[c].owner == p && t.claims[c].status.ClaimPrepared?
      ensures Sum(now, ClaimedUnits(c)) <= t.claims[c].quantity
    {
      MarkedWeight(w.inv, now, ClaimedUnits(c));
    }
  }

  lemma TidyKeeps(w: World, p: Player, now: seq<Slot>, item: Item, sha: string -> int)
    requires Kept(w, p, sha) && w.pc.Idle? && w.at.Idle? && Tidied(w.inv, now)
    ensures var v := w.(inv := now); Kept(v, p, sha) && Stock(v, p, item) == Stock(w, p, item)
  {
    hide Sum; hide Total; hide Good; hide Priced; hide S.SlotsOk; hide S.StacksOk; hide D.SlotsOk; hide D.UnitsOk;
    hide Tidied;
    TidySlots(w, p, now);
    TidyCounts(w, p, now);
    FreeStays(w.inv, now, item);
    MarkedWeight(w.inv, now, Offered(w.tables, item));
    MarkedWeight(w.inv, now, Delivered(w.tables, item));
  }

  lemma FreeStays(inv: seq<Slot>, now: seq<Slot>, item: Item)
    requires Tidied(inv, now)
    ensures Sum(now, Free(item)) == Sum(inv, Free(item))
  {
    hide Sum;
  }

  lemma KeptIsReady(w: World, p: Player, sha: string -> int)
    requires Kept(w, p, sha)
    ensures Ready(w)
  {
    hide Sum; hide Total; hide Good; hide Priced; hide S.SlotsOk; hide S.StacksOk; hide D.SlotsOk; hide D.UnitsOk;
  }

  /** Every step, whoever takes it, keeps both sides in agreement and conserves the units of every item. */
  lemma AdvanceKeeps(w: World, p: Player, x: Event, item: Item, sha: string -> int)
    requires Kept(w, p, sha) && EventOk(p, x)
    ensures Ready(w)
    ensures Kept(Advance(w, p, x, sha), p, sha)
    ensures Stock(Advance(w, p, x, sha), p, item) == Stock(w, p, item)
  {
    hide Kept; hide Stock; hide Ready; hide Tidied;
    KeptIsReady(w, p, sha);
    match x
    case Offering(e) => SellKeeps(w, p, e, item, sha);
    case Collecting(e) => ClaimKeeps(w, p, e, item, sha);
    case Serve(call) => ServeKeeps(w, p, call, item, sha);
    case Tidy(slots) => if w.pc.Idle? && w.at.Idle? && Tidied(w.inv, slots) { TidyKeeps(w, p, slots, item, sha); }
    case Crash =>
      Stopped(w, p, sha);
      SameStock(w, p, item);
  }

  lemma SameStock(w: World, p: Player, item: Item)
    ensures Stock(w.(pc := S.Idle, at := D.Idle), p, item) == Stock(w, p, item)
  {
    hide Sum;
  }

  // ----- runs -----

  predicate EventsOk(p: Player, events: seq<Event>)
  {
    forall i :: 0 <= i < |events| ==> EventOk(p, events[i])
  }

  /** The world after a run of events. */
  ghost function Play(w: World, p: Player, events: seq<Event>, sha: string -> int): (v: World)
    requires Kept(w, p, sha) && EventsOk(p, events)
    ensures Kept(v, p, sha)
    decreases |events|
  {
    hide Kept;
    if events == [] then w
    else
      var before := Play(w, p, events[..|events| - 1], sha);
      AdvanceKeeps(before, p, events[|events| - 1], Item("", 0, ""), sha);
      Advance(before, p, events[|events| - 1], sha)
  }

  /**
   Over any run of sells and deliveries in one inventory, with crashes anywhere, every unit of every
   item is in the inventory or sold, and those that came were delivered.
   */
  lemma {:induction false} ItemsAreConserved(w: World, p: Player, events: seq<Event>, item: Item, sha: string -> int)
    requires Kept(w, p, sha) && EventsOk(p, events)
    ensures Stock(Play(w, p, events, sha), p, item) == Stock(w, p, item)
    decreases |events|
  {
    hide Kept; hide EventOk; hide Advance; hide Stock; hide Ready;
    if events != [] {
      var front := events[..|events| - 1];
      ItemsAreConserved(w, p, front, item, sha);
      AdvanceKeeps(Play(w, p, front, sha), p, events[|events| - 1], item, sha);
    }
  }
}
