/** Where a sell or a reconciliation ends when nothing interrupts it any more. */
module EscrowRecovery {
  import opened Sums
  import opened Domain
  import opened Matching
  import opened Settlement
  import opened Placement
  import opened Exchange
  import opened Invariants
  import opened StepsMoney
  import opened StepsTrade
  import opened Runs
  import opened Inventory
  import opened SellEscrow
  import opened Solvency
  import Guarantees

  // ----- how far it is to the end -----

  function Rank(pc: Phase): nat
  {
    match pc
    case Tagging(_, _) => 9
    case Persisting(_) => 8
    case Receipting(_, _) => 7
    case Ordering(_) => 6
    case Restoring(_, _) => 6
    case Removing(_, _) => 5
    case Clearing(_, _) => 4
    case Cleaning(_) => 3
    case Canceling(_) => 1
    case Idle => 0
  }

  function Left(w: Shop): int
  {
    match w.pc
    case Tagging(_, rest) => |rest|
    case Receipting(_, i) => |w.inv| - i
    case Removing(_, i) => |w.inv| - i
    case Clearing(_, i) => |w.inv| - i
    case Restoring(_, i) => |w.inv| - i
    case _ => 0
  }

  lemma TakeKeeps(w: Shop, p: Player, sha: string -> int)
    requires Kept(w, p, sha)
    ensures Kept(Take(w), p, sha)
  {
    hide Kept; hide Take;
    KeptRow(w, p, sha);
    if Write(w).Some? { WriteKeeps(w, p, sha); } else { TransactionKeeps(w, p, sha); }
  }

  lemma KeptRow(w: Shop, p: Player, sha: string -> int)
    requires Kept(w, p, sha)
    ensures Priced(w.tables) && PhaseOk(w, p) && (!w.pc.Idle? ==> Row(w.tables, w.pc.e))
    ensures SlotsOk(w.tables, p, w.inv) && StacksOk(w.tables, p, w.inv) && Good(w.tables, sha)
  {
    hide Sum; hide Good; hide Priced; hide StacksOk;
  }

  lemma TakeGetsCloser(w: Shop, p: Player, sha: string -> int)
    requires Kept(w, p, sha) && !w.pc.Idle?
    ensures 0 <= Left(w) && 0 <= Left(Take(w))
    ensures Rank(Take(w).pc) < Rank(w.pc) || (Rank(Take(w).pc) == Rank(w.pc) && Left(Take(w)) < Left(w))
  {
    hide Sum; hide Good; hide Priced; hide StacksOk; hide ExecuteEscrow; hide MarkTagged; hide CancelEscrow;
    hide CleanEscrow;
  }

  /** All steps up to the point where nothing is left to do. */
  ghost function Drive(w: Shop, p: Player, sha: string -> int): (v: Shop)
    requires Kept(w, p, sha)
    ensures Kept(v, p, sha) && v.pc.Idle?
    decreases Rank(w.pc), Left(w)
  {
    if w.pc.Idle? then w
    else
      TakeKeeps(w, p, sha);
      TakeGetsCloser(w, p, sha);
      Drive(Take(w), p, sha)
  }

  lemma DriveOn(w: Shop, p: Player, sha: string -> int)
    requires Kept(w, p, sha) && !w.pc.Idle?
    ensures Kept(Take(w), p, sha) && Drive(w, p, sha) == Drive(Take(w), p, sha)
  {
    hide Kept; hide Take;
    TakeKeeps(w, p, sha);
    KeptRow(w, p, sha);
    TakeGetsCloser(w, p, sha);
  }

  // ----- sweeps over the slots -----

  predicate Sweeping(pc: Phase) { pc.Receipting? || pc.Removing? || pc.Clearing? || pc.Restoring? }

  /** What a sweep does to one slot. */
  function Swap(pc: Phase, t: Tables, s: Slot): Slot
    requires Sweeping(pc) && Row(t, pc.e)
  {
    match pc
    case Receipting(e, _) => ReplaceSlot(s, e, "")
    case Removing(e, _) => RemoveSlot(s, e)
    case Clearing(e, _) => ClearSlot(s, e)
    case Restoring(e, _) => RestoreSlot(s, e, ItemOf(t, e))
  }

  /** The shop when the sweep has passed the last slot. */
  function Swept(w: Shop): Shop
    requires Sweeping(w.pc) && Row(w.tables, w.pc.e)
  {
    w.(inv := seq(|w.inv|, j requires 0 <= j < |w.inv| =>
                    if j < w.pc.slot then w.inv[j] else Swap(w.pc, w.tables, w.inv[j])),
       pc := w.pc.(slot := |w.inv|))
  }

  lemma SweepStep(w: Shop)
    requires Priced(w.tables) && Sweeping(w.pc) && Row(w.tables, w.pc.e) && w.pc.slot < |w.inv|
    ensures Sweeping(Take(w).pc) && Take(w).tables == w.tables && Take(w).pc == w.pc.(slot := w.pc.slot + 1)
    ensures Take(w).inv == w.inv[w.pc.slot := Swap(w.pc, w.tables, w.inv[w.pc.slot])]
    ensures Swept(Take(w)) == Swept(w)
  {
    hide Priced;
    assert Swept(Take(w)).inv == Swept(w).inv;
  }

  lemma {:induction false} SweepDrives(w: Shop, p: Player, sha: string -> int)
    requires Kept(w, p, sha) && Sweeping(w.pc)
    ensures Row(w.tables, w.pc.e) && w.pc.slot <= |w.inv|
    ensures Kept(Swept(w), p, sha) && Drive(w, p, sha) == Drive(Swept(w), p, sha)
    decreases Left(w)
  {
    hide Kept; hide Take; hide Drive; hide SlotsOk; hide StacksOk; hide Priced; hide Swept; hide PhaseOk;
    hide Swap; hide Good;
    KeptRow(w, p, sha);
    SweepRange(w, p);
    if w.pc.slot < |w.inv| {
      SweepStep(w);
      DriveOn(w, p, sha);
      SweepDrives(Take(w), p, sha);
    } else {
      SweepEnds(w);
    }
  }

  lemma SweepRange(w: Shop, p: Player)
    requires PhaseOk(w, p) && Sweeping(w.pc)
    ensures Row(w.tables, w.pc.e) && w.pc.slot <= |w.inv|
  {
  }

  lemma SweepEnds(w: Shop)
    requires Sweeping(w.pc) && Row(w.tables, w.pc.e) && w.pc.slot == |w.inv|
    ensures Swept(w) == w
  {
    assert Swept(w).inv == w.inv;
  }

  /** Every marker of an escrow emptied: stacks marked for sale and receipts. */
  function Emptied(s: seq<Slot>, e: Id): seq<Slot> { WithoutReceipts(WithoutSelling(s, e), e) }

  lemma SweptWhole(w: Shop)
    requires Sweeping(w.pc) && Row(w.tables, w.pc.e) && w.pc.slot == 0
    ensures Swept(w).inv == match w.pc
                            case Receipting(e, _) => WithReceipts(w.inv, e, "")
                            case Removing(e, _) => WithoutSelling(w.inv, e)
                            case Clearing(e, _) => WithoutReceipts(w.inv, e)
                            case Restoring(e, _) => Restored(w.inv, e, ItemOf(w.tables, e))
  {
  }

  // ----- what a reconciliation amounts to -----

  /** An ORDERED escrow: no marker of it stays and its row is cleaned. */
  function Cleaned(t: Tables, inv: seq<Slot>, e: Id): Shop
  {
    Shop(After(t, CleanEscrow(t, e)), Emptied(inv, e), Idle)
  }

  /** A TAGGED escrow: its stacks give way to receipts, and unless the exchange refuses it is an order, cleaned. */
  ghost function Sold(t: Tables, inv: seq<Slot>, e: Id): Shop
    requires Priced(t)
  {
    match ExecuteEscrow(t, e)
    case Ok((u, _)) => Cleaned(u, inv, e)
    case Err(_) => Shop(t, WithReceipts(inv, e, ""), Idle)
  }

  function Marked(w: Shop, e: Id): Tables
  {
    After(w.tables, MarkTagged(w.tables, e, MarkedUnits(w, e), Sum(w.inv, SellingStacks(e))))
  }

  /** A sell that is to go through: TAGGED, or PREPARED with enough units marked. */
  predicate Wanted(w: Shop, e: Id)
    requires Row(w.tables, e)
  {
    var row := w.tables.escrows[e];
    row.status.EscrowTagged? || (row.status.EscrowPrepared? && row.requested <= MarkedUnits(w, e))
  }

  /** One escrow's part of `reconcileSellEscrows`, as one step over whole inventories. */
  ghost function Reconciled(w: Shop, e: Id): Shop
    requires Priced(w.tables) && Row(w.tables, e)
  {
    match w.tables.escrows[e].status
    case EscrowPrepared =>
      if Wanted(w, e) then MarkedIsPriced(w, e); Sold(Marked(w, e), w.inv, e)
      else Shop(After(w.tables, CancelEscrow(w.tables, e)), Restored(w.inv, e, ItemOf(w.tables, e)), Idle)
    case EscrowTagged => Sold(w.tables, w.inv, e)
    case EscrowOrdered => Cleaned(w.tables, w.inv, e)
    case EscrowCanceled => Shop(w.tables, Restored(w.inv, e, ItemOf(w.tables, e)), Idle)
  }

  lemma MarkedIsPriced(w: Shop, e: Id)
    requires Priced(w.tables)
    ensures Priced(Marked(w, e))
  {
    hide Sum; hide PricedRows;
  }

  lemma NoStacksCounted(inv: seq<Slot>, e: Id)
    ensures NoSelling(inv, e, |inv|) ==> Sum(inv, SellingStacks(e)) == 0 && Sum(inv, SellingUnits(e)) == 0
    ensures NoReceipts(inv, e, |inv|) ==> Sum(inv, ReceiptUnits(e)) == 0
  {
    hide Sum;
    if NoSelling(inv, e, |inv|) {
      SumZero(inv, SellingStacks(e));
      SumZero(inv, SellingUnits(e));
    }
    if NoReceipts(inv, e, |inv|) { SumZero(inv, ReceiptUnits(e)); }
  }

  lemma NothingToSweep(inv: seq<Slot>, e: Id, item: Item)
    ensures NoSelling(inv, e, |inv|) ==> Restored(inv, e, item) == inv
    ensures NoReceipts(inv, e, |inv|) ==> WithoutReceipts(inv, e) == inv
    ensures Emptied(WithReceipts(inv, e, ""), e) == Emptied(inv, e)
  {
  }

  /** The last two sweeps and the row's cleaning. */
  lemma RemovingDrives(w: Shop, p: Player, e: Id, sha: string -> int)
    requires Kept(w, p, sha) && w.pc == Removing(e, 0)
    ensures Drive(w, p, sha) == Cleaned(w.tables, w.inv, e)
  {
    hide Kept; hide Drive; hide Take; hide SlotsOk; hide StacksOk; hide Priced; hide Sum; hide Swept;
    hide WithoutSelling;
    hide WithoutReceipts;
    KeptRow(w, p, sha);
    SweepDrives(w, p, sha);
    SweptWhole(w);
    var a := Swept(w);
    assert a.tables == w.tables && a.pc == Removing(e, |a.inv|) by { SweptFrame(w); }
    DriveOn(a, p, sha);
    TakeLast(a, p, sha);
    var b := Take(a);
    SweepDrives(b, p, sha);
    SweptWhole(b);
    var c := Swept(b);
    assert c.tables == w.tables && c.pc == Clearing(e, |c.inv|) by { SweptFrame(b); }
    DriveOn(c, p, sha);
    TakeLast(c, p, sha);
    CleanDrives(Take(c), p, e, sha);
  }

  lemma SweptFrame(w: Shop)
    requires Sweeping(w.pc) && Row(w.tables, w.pc.e)
    ensures Swept(w).tables == w.tables && |Swept(w).inv| == |w.inv| && Swept(w).pc == w.pc.(slot := |w.inv|)
  {
  }

  /** Behind its last slot a sweep leads on as the escrow's status says. */
  lemma TakeLast(w: Shop, p: Player, sha: string -> int)
    requires Kept(w, p, sha) && Sweeping(w.pc) && w.pc.slot == |w.inv| && Row(w.tables, w.pc.e)
    ensures var e, row := w.pc.e, w.tables.escrows[w.pc.e];
            Take(w) == w.(pc := match w.pc
                                case Receipting(_, _) => Ordering(e)
                                case Removing(_, _) => Clearing(e, 0)
                                case Clearing(_, _) =>
                                  if row.status.EscrowOrdered? && !row.cleaned then Cleaning(e) else Idle
                                case Restoring(_, _) =>
                                  if row.status.EscrowPrepared? then Canceling(e) else Clearing(e, 0))
  {
    hide Sum; hide Good; hide Priced; hide StacksOk;
    NoStacksCounted(w.inv, w.pc.e);
    if w.pc.Receipting? { StacksNow(w, p, w.pc.e); }
    if w.pc.Clearing? { OrderedHasNoSelling(w.tables, p, w.inv, w.pc.e); }
  }

  /** Cleaning a row that is already clean changes nothing. */
  lemma CleanDrives(w: Shop, p: Player, e: Id, sha: string -> int)
    requires Kept(w, p, sha) && Row(w.tables, e) && w.tables.escrows[e].status.EscrowOrdered?
    requires w.pc == if w.tables.escrows[e].cleaned then Idle else Cleaning(e)
    ensures Drive(w, p, sha) == Shop(After(w.tables, CleanEscrow(w.tables, e)), w.inv, Idle)
  {
    hide Kept; hide SlotsOk; hide StacksOk; hide Priced; hide Sum;
    KeptRow(w, p, sha);
    if w.pc.Idle? {
      assert w.tables.escrows[e := w.tables.escrows[e]] == w.tables.escrows;
    } else {
      DriveOn(w, p, sha);
    }
  }

  lemma ReceiptingDrives(w: Shop, p: Player, e: Id, sha: string -> int)
    requires Kept(w, p, sha) && w.pc == Receipting(e, 0) && Priced(w.tables)
    ensures Drive(w, p, sha) == Sold(w.tables, w.inv, e)
  {
    hide Kept; hide Drive; hide Take; hide SlotsOk; hide StacksOk; hide Priced; hide Sum; hide Swept; hide WithReceipts;
    hide ExecuteEscrow; hide Emptied; hide CleanEscrow; hide After;
    KeptRow(w, p, sha);
    SweepDrives(w, p, sha);
    SweptWhole(w);
    SweptFrame(w);
    var a := Swept(w);
    DriveOn(a, p, sha);
    TakeLast(a, p, sha);
    var b := Take(a);
    DriveOn(b, p, sha);
    TakeOrdering(b, e);
    NothingToSweep(w.inv, e, ItemOf(w.tables, e));
    if ExecuteEscrow(w.tables, e).Ok? {
      RemovingDrives(Take(b), p, e, sha);
    } else {
      DriveIdle(Take(b), p, sha);
    }
  }

  lemma DriveIdle(w: Shop, p: Player, sha: string -> int)
    requires Kept(w, p, sha) && w.pc.Idle?
    ensures Drive(w, p, sha) == w
  {
    hide Kept;
  }

  lemma TakeOrdering(w: Shop, e: Id)
    requires Priced(w.tables) && w.pc == Ordering(e) && Row(w.tables, e)
    ensures Take(w) == match ExecuteEscrow(w.tables, e)
                       case Ok((u, _)) => w.(tables := u, pc := Removing(e, 0))
                       case Err(_) => w.(pc := Idle)
  {
    hide ExecuteEscrow; hide Priced;
  }

  lemma MarkedStacksCount(w: Shop, p: Player, e: Id)
    requires SlotsOk(w.tables, p, w.inv) && 0 < MarkedUnits(w, e)
    ensures 0 < Sum(w.inv, SellingStacks(e))
  {
    hide Sum;
    SumNonNegative(w.inv, SellingStacks(e));
    if Sum(w.inv, SellingStacks(e)) == 0 {
      forall i | 0 <= i < |w.inv|
        ensures !IsSelling(w.inv[i], e)
      {
        assert SellingStacks(e)(w.inv[i]) <= 0;
      }
      NothingMarked(w.inv, e);
    }
  }

  lemma PersistingDrives(w: Shop, p: Player, e: Id, sha: string -> int)
    requires Kept(w, p, sha) && w.pc == Persisting(e) && Row(w.tables, e) && Wanted(w, e) && Priced(Marked(w, e))
    ensures Drive(w, p, sha) == Sold(Marked(w, e), w.inv, e)
  {
    hide Kept; hide Drive; hide StacksOk; hide Priced; hide Sum; hide ExecuteEscrow; hide Sold; hide Good;
    KeptRow(w, p, sha);
    EscrowTerms(w.tables, e, sha);
    MarkedStacksCount(w, p, e);
    DriveOn(w, p, sha);
    assert Take(w) == w.(tables := Marked(w, e), pc := Receipting(e, 0));
    ReceiptingDrives(Take(w), p, e, sha);
  }

  lemma CancelingDrives(w: Shop, p: Player, e: Id, sha: string -> int)
    requires Kept(w, p, sha) && w.pc == Canceling(e)
    ensures Drive(w, p, sha) == Shop(After(w.tables, CancelEscrow(w.tables, e)), w.inv, Idle)
  {
    hide Kept; hide SlotsOk; hide StacksOk; hide Priced; hide Sum; hide CancelEscrow;
    KeptRow(w, p, sha);
    DriveOn(w, p, sha);
  }

  lemma RestoringDrives(w: Shop, p: Player, e: Id, sha: string -> int)
    requires Kept(w, p, sha) && w.pc == Restoring(e, 0) && Row(w.tables, e)
    ensures Drive(w, p, sha)
            == Shop(After(w.tables, CancelEscrow(w.tables, e)), Restored(w.inv, e, ItemOf(w.tables, e)), Idle)
  {
    hide Kept; hide Drive; hide Take; hide StacksOk; hide Priced; hide Sum; hide Swept; hide Restored; hide SlotsOk;
    hide WithoutReceipts;
    KeptRow(w, p, sha);
    SweepDrives(w, p, sha);
    SweptWhole(w);
    SweptFrame(w);
    var a := Swept(w);
    DriveOn(a, p, sha);
    TakeLast(a, p, sha);
    var b := Take(a);
    if w.tables.escrows[e].status.EscrowPrepared? {
      CancelingDrives(b, p, e, sha);
    } else {
      SweepDrives(b, p, sha);
      SweptWhole(b);
      SweptFrame(b);
      KeptRow(b, p, sha);
      PreparedHasNoReceipts(b.tables, p, b.inv, e);
      NothingToSweep(b.inv, e, ItemOf(w.tables, e));
      DriveOn(Swept(b), p, sha);
      TakeLast(Swept(b), p, sha);
      DriveIdle(Take(Swept(b)), p, sha);
    }
  }

  lemma StartKeeps(w: Shop, p: Player, e: Id, sha: string -> int)
    requires Kept(w, p, sha) && w.pc.Idle?
    ensures Kept(w.(pc := Begin(w, p, e)), p, sha)
  {
    hide Kept; hide Take;
    AdvanceKeeps(w, p, Resume(e), sha);
    KeptRow(w, p, sha);
  }

  /** The steps of a reconciliation, one slot and one transaction at a time, amount to the one step. */
  lemma DriveReconciles(w: Shop, p: Player, e: Id, sha: string -> int)
    requires Kept(w, p, sha) && w.pc.Idle? && e < |w.tables.escrows| && w.tables.escrows[e].owner == p
    ensures Priced(w.tables) && Row(w.tables, e) && Kept(w.(pc := Begin(w, p, e)), p, sha)
    ensures Drive(w.(pc := Begin(w, p, e)), p, sha) == Reconciled(w, e)
  {
    hide Kept; hide Drive; hide Take; hide StacksOk; hide Priced; hide Sum; hide SlotsOk; hide Sold;
    hide Cleaned; hide Restored;
    hide Marked;
    StartKeeps(w, p, e, sha);
    KeptRow(w, p, sha);
    RowsExist(w.tables, sha);
    assert Row(w.tables, e);
    var b := w.(pc := Begin(w, p, e));
    match w.tables.escrows[e].status
    case EscrowPrepared =>
      if Wanted(w, e) {
        MarkedIsPriced(w, e);
        SameMarks(w, b, e);
        PersistingDrives(b, p, e, sha);
      } else if MarkedUnits(w, e) > 0 {
        RestoringDrives(b, p, e, sha);
      } else {
        CancelingDrives(b, p, e, sha);
        NothingLeftMarked(w.tables, p, w.inv, e);
        NothingToSweep(w.inv, e, ItemOf(w.tables, e));
      }
    case EscrowTagged => ReceiptingDrives(b, p, e, sha);
    case EscrowOrdered => RemovingDrives(b, p, e, sha);
    case EscrowCanceled => RestoringDrives(b, p, e, sha); CancelAgain(w.tables, e);
  }

  lemma SameMarks(w: Shop, b: Shop, e: Id)
    requires b.tables == w.tables && b.inv == w.inv && Row(w.tables, e)
    ensures Marked(b, e) == Marked(w, e) && (Wanted(b, e) <==> Wanted(w, e))
  {
    hide Sum;
  }

  lemma CancelAgain(t: Tables, e: Id)
    requires e < |t.escrows| && t.escrows[e].status.EscrowCanceled?
    ensures After(t, CancelEscrow(t, e)) == t
  {
  }

  // ----- the end -----

  predicate SameTerms(now: Escrow, row: Escrow)
  {
    && now.owner == row.owner && now.name == row.name && now.market == row.market && now.requested == row.requested
    && now.kind == row.kind && now.price == row.price
  }

  /** A sell order with the terms of an escrow. */
  predicate SellsFor(o: Order, row: Escrow)
  {
    && o.side.Sell? && o.owner == row.owner && o.market == row.market && o.original == row.requested
    && o.kind == row.kind && o.price == (if row.kind.Limit? then row.price else 0)
  }

  /**
   How reconciling an escrow ends, by what can be seen before it: a short one is CANCELED and its
   stacks are as they were, a sell the exchange does not take stays TAGGED behind its receipts, any
   other sell is one new order, cleaned, with no marker left.
   */
  ghost predicate Settled(w: Shop, v: Shop, e: Id)
    requires Row(w.tables, e)
  {
    var row := w.tables.escrows[e];
    && |v.tables.escrows| == |w.tables.escrows| && v.tables.markets == w.tables.markets && v.pc.Idle?
    && Money(v.tables.floor) == Money(w.tables.floor)
    && (forall d: nat :: d < |w.tables.escrows| && d != e ==> v.tables.escrows[d] == w.tables.escrows[d])
    && var now := v.tables.escrows[e];
       && SameTerms(now, row)
       && match now.status
       case EscrowPrepared => false
       case EscrowTagged =>
         && Wanted(w, e) && !Accepts(w.tables, row)
         && v.inv == WithReceipts(w.inv, e, "") && v.tables.floor == w.tables.floor
       case EscrowOrdered =>
         && now.cleaned && v.inv == Emptied(w.inv, e)
         && if row.status.EscrowOrdered? then now.order == row.order && v.tables.floor == w.tables.floor
            else Wanted(w, e) && Accepts(w.tables, row) && now.order == Some(|w.tables.floor.orders|)
                 && |v.tables.floor.orders| == |w.tables.floor.orders| + 1
                 && SellsFor(v.tables.floor.orders[|w.tables.floor.orders|], row)
       case EscrowCanceled =>
         && (row.status.EscrowCanceled? || (row.status.EscrowPrepared? && !Wanted(w, e)))
         && v.inv == Restored(w.inv, e, ItemOf(w.tables, e)) && v.tables.floor == w.tables.floor
  }

  lemma SoldSettles(t: Tables, w: Shop, e: Id, sha: string -> int)
    requires Good(t, sha) && Priced(t) && Row(w.tables, e) && Wanted(w, e)
    requires t == w.tables.(escrows := t.escrows) && |t.escrows| == |w.tables.escrows|
    requires forall d: nat :: d < |t.escrows| && d != e ==> t.escrows[d] == w.tables.escrows[d]
    requires t.escrows[e] == w.tables.escrows[e].(tagged := t.escrows[e].tagged, receipts := t.escrows[e].receipts,
                                                  status := EscrowTagged)
    ensures Settled(w, Sold(t, w.inv, e), e)
  {
    hide Good; hide Sum; hide Total; hide ExecuteEscrow; hide PlaceSell; hide PricedRows; hide Executed; hide Money;
    hide Emptied; hide WithReceipts; hide Restored; hide SellRefused;
    TaggedEscrowRefused(t, e, sha);
    ExecuteEscrowShape(t, e);
    Guarantees.ExecuteEscrowConserves(t, e, sha);
    EscrowSells(t, e, sha);
    NewestOrder(t, e);
    var v := Sold(t, w.inv, e);
    if ExecuteEscrow(t, e).Ok? {
      var u := ExecuteEscrow(t, e).value.0;
      assert u.escrows[e].status.EscrowOrdered?;
      assert v.tables == u.(escrows := u.escrows[e := u.escrows[e].(cleaned := true)]);
      assert u.markets == t.markets && AfterPair(t, ExecuteEscrow(t, e)) == u;
      var (g, x) := PlaceSell(t.floor, t.markets, EscrowRequest(t.escrows[e])).value;
      assert u.floor.orders == g.orders;
      OrderHasTerms(t, g, x, t.escrows[e]);
    }
  }

  lemma NewestOrder(t: Tables, e: Id)
    requires PricedRows(t.floor) && e < |t.escrows|
    requires t.escrows[e].kind.Limit? ==> t.escrows[e].price > 0
    ensures match PlaceSell(t.floor, t.markets, EscrowRequest(t.escrows[e]))
            case Err(_) => true
            case Ok((g, x)) => x.order == |t.floor.orders| && |g.orders| == |t.floor.orders| + 1
  {
  }

  lemma OrderHasTerms(t: Tables, g: Floor, x: Execution, row: Escrow)
    requires Executed(t.floor, g, t.markets, EscrowRequest(row), x)
    ensures |t.floor.orders| < |g.orders| && SellsFor(g.orders[|t.floor.orders|], row)
  {
    hide Executed;
    ExecutedOrder(t.floor, g, t.markets, EscrowRequest(row), x);
  }

  lemma ReconciledSettles(w: Shop, p: Player, e: Id, sha: string -> int)
    requires Good(w.tables, sha) && Priced(w.tables) && Row(w.tables, e) && SlotsOk(w.tables, p, w.inv)
    ensures Settled(w, Reconciled(w, e), e)
  {
    hide Good; hide Sum; hide Total; hide PricedRows; hide Money; hide Sold; hide Emptied; hide Restored; hide StacksOk;
    if Wanted(w, e) {
      if w.tables.escrows[e].status.EscrowPrepared? {
        EscrowTerms(w.tables, e, sha);
        MarkedStacksCount(w, p, e);
        MarkTaggedKeepsGood(w.tables, e, MarkedUnits(w, e), Sum(w.inv, SellingStacks(e)), sha);
        MarkedIsPriced(w, e);
        SoldSettles(Marked(w, e), w, e, sha);
      } else {
        SoldSettles(w.tables, w, e, sha);
      }
    } else if w.tables.escrows[e].status.EscrowOrdered? {
      EscrowTerms(w.tables, e, sha);
    }
  }

  /** Reconciling any escrow of the player, from wherever it was interrupted, settles it. */
  lemma ReconciliationFinishes(w: Shop, p: Player, e: Id, sha: string -> int)
    requires Kept(w, p, sha) && w.pc.Idle? && e < |w.tables.escrows| && w.tables.escrows[e].owner == p
    ensures Kept(w.(pc := Begin(w, p, e)), p, sha)
    ensures Row(w.tables, e) && Settled(w, Drive(w.(pc := Begin(w, p, e)), p, sha), e)
  {
    hide Kept; hide Settled; hide Reconciled; hide Priced; hide Drive;
    DriveReconciles(w, p, e, sha);
    KeptRow(w, p, sha);
    ReconciledSettles(w, p, e, sha);
  }

  // ----- a submission -----

  lemma TagFirst(s: seq<Slot>, ids: seq<nat>, e: Id)
    requires ids != [] && forall k :: 0 <= k < |ids| ==> ids[k] < |s|
    ensures TagAll(s, ids, e) == TagAll(s[ids[0] := Tag(s[ids[0]], e)], ids[1..], e)
  {
    hide TagAll;
    var r := s[ids[0] := Tag(s[ids[0]], e)];
    TagAllAt(s, ids, e);
    TagAllAt(r, ids[1..], e);
    assert ids == [ids[0]] + ids[1..];
    forall i: nat | i < |s|
      ensures TagAll(s, ids, e)[i] == TagAll(r, ids[1..], e)[i]
    {
      assert i in ids <==> i == ids[0] || i in ids[1..];
    }
  }

  lemma {:induction false} TaggingDrives(w: Shop, p: Player, e: Id, plan: seq<nat>, sha: string -> int)
    requires Kept(w, p, sha) && w.pc == Tagging(e, plan)
    ensures forall k :: 0 <= k < |plan| ==> plan[k] < |w.inv|
    ensures var v := w.(inv := TagAll(w.inv, plan, e), pc := Persisting(e));
            Kept(v, p, sha) && Drive(w, p, sha) == Drive(v, p, sha)
    decreases |plan|
  {
    hide Kept; hide Drive; hide SlotsOk; hide StacksOk; hide Priced; hide TagAll;
    KeptRow(w, p, sha);
    DriveOn(w, p, sha);
    if plan == [] {
      TagNone(w.inv, e);
    } else {
      TagFirst(w.inv, plan, e);
      TaggingDrives(Take(w), p, e, plan[1..], sha);
    }
  }

  lemma TagNone(s: seq<Slot>, e: Id)
    ensures TagAll(s, [], e) == s
  {
  }

  /** The stacks a submission has marked cover what it asked for. */
  lemma PlanIsEnough(w: Shop, p: Player, e: Id, plan: seq<nat>)
    requires SlotsOk(w.tables, p, w.inv) && Row(w.tables, e) && w.tables.escrows[e].status.EscrowPrepared?
    requires Plan(w.inv, ItemOf(w.tables, e), w.tables.escrows[e].requested, plan)
    ensures Wanted(w.(inv := TagAll(w.inv, plan, e)), e)
  {
    hide Sum; hide TagAll; hide SlotsOk;
    TagAllMoves(w.inv, ItemOf(w.tables, e), plan, e);
    NothingLeftMarked(w.tables, p, w.inv, e);
  }

  lemma SubmissionSells(v: Shop, p: Player, e: Id, plan: seq<nat>, sha: string -> int)
    requires Kept(v, p, sha) && v.pc == Tagging(e, plan) && Row(v.tables, e)
    requires Plan(v.inv, ItemOf(v.tables, e), v.tables.escrows[e].requested, plan)
    ensures var m := v.(inv := TagAll(v.inv, plan, e)); Wanted(m, e) && Settled(m, Drive(v, p, sha), e)
  {
    hide Kept; hide Drive; hide Good; hide StacksOk; hide Priced; hide Plan; hide SlotsOk; hide Sum;
    hide Settled; hide TagAll;
    hide Sold;
    KeptRow(v, p, sha);
    PlanIsEnough(v, p, e, plan);
    TaggingDrives(v, p, e, plan, sha);
    var m := v.(inv := TagAll(v.inv, plan, e));
    var b := m.(pc := Persisting(e));
    SameMarks(m, b, e);
    KeptRow(b, p, sha);
    MarkedIsPriced(b, e);
    PersistingDrives(b, p, e, sha);
    ReconciledSettles(m, p, e, sha);
  }

  /** An escrow is prepared only for an active market. */
  lemma PreparedIsActive(t: Tables, cfg: Config, sha: string -> int, req: Request)
    requires Priced(t)
    ensures var u := Step(t, cfg, sha, DoPrepareEscrow(req));
            |u.escrows| > |t.escrows| ==>
              var row := u.escrows[|t.escrows|]; row.market < |u.markets| && u.markets[row.market].active
  {
    hide Priced; hide EnsureAccount; hide Validate;
  }

  lemma NewEscrowUnmarked(t: Tables, p: Player, inv: seq<Slot>)
    requires SlotsOk(t, p, inv)
    ensures NoSelling(inv, |t.escrows|, |inv|)
  {
    MarksExist(t, p, inv);
  }

  lemma ShortSell(v: Shop, d: Shop, p: Player, e: Id, sha: string -> int)
    requires Good(v.tables, sha) && Row(v.tables, e) && v.tables.escrows[e].status.EscrowPrepared? && Settled(v, d, e)
    requires NoSelling(v.inv, e, |v.inv|)
    ensures e < |d.tables.escrows| && d.tables.escrows[e].status.EscrowCanceled? && d.inv == v.inv
    ensures d.tables.floor == v.tables.floor
  {
    hide Sum; hide Money; hide Good;
    EscrowTerms(v.tables, e, sha);
    NothingMarked(v.inv, e);
    NothingToSweep(v.inv, e, ItemOf(v.tables, e));
  }

  /** Slots after a sell of the planned ones: empty when it became an order, receipts while it could not. */
  lemma PlannedSlots(inv: seq<Slot>, plan: seq<nat>, e: Id, item: Item)
    requires NoSelling(inv, e, |inv|) && NoReceipts(inv, e, |inv|)
    requires forall k :: 0 <= k < |plan| ==> plan[k] < |inv| && Sellable(inv[plan[k]], item)
    ensures var m := TagAll(inv, plan, e);
            && |Emptied(m, e)| == |WithReceipts(m, e, "")| == |inv|
            && (forall i: nat :: i < |inv| ==> Emptied(m, e)[i] == if i in plan then None else inv[i])
            && (forall i: nat :: i < |inv| ==> WithReceipts(m, e, "")[i] == if i in plan then ReceiptSlot(e, "")
                else inv[i])
  {
    hide TagAll;
    TagAllAt(inv, plan, e);
  }

  /** What a submission that found enough stacks has written so far. */
  lemma SubmissionStarted(w: Shop, p: Player, cfg: Config, req: Request, plan: seq<nat>, sha: string -> int)
    requires Kept(w, p, sha) && w.pc.Idle? && ConfigOk(cfg) && req.player == p
    ensures var v, e := OpenEscrow(w, sha, cfg, req, plan), |w.tables.escrows|;
            && Kept(v, p, sha) && v.inv == w.inv
            && (v.pc.Tagging? ==>
                  && v.pc == Tagging(e, plan) && Row(v.tables, e) && v.tables.escrows[e].status.EscrowPrepared?
                  && Plan(w.inv, ItemOf(v.tables, e), v.tables.escrows[e].requested, plan)
                  && v.tables.markets[v.tables.escrows[e].market].active)
            && (Row(v.tables, e) ==> v.tables.escrows[e].status.EscrowPrepared? && AsksFor(v.tables.escrows[e], req))
  {
    hide Kept; hide Good; hide StacksOk; hide Priced; hide Step; hide Plan; hide SlotsOk; hide Sum;
    KeptRow(w, p, sha);
    SubmitKeeps(w, p, cfg, req, plan, sha);
    PrepareAddsOneRow(w.tables, cfg, sha, req);
    PreparedIsActive(w.tables, cfg, sha, req);
  }

  /**
   A submission that nothing interrupts empties exactly the planned slots and makes one order of
   them, cleaned, if the exchange takes the sell, and stops at the receipts if not.
   */
  lemma SubmissionFinishes(w: Shop, p: Player, cfg: Config, req: Request, plan: seq<nat>, v: Shop, sha: string -> int)
    requires Kept(w, p, sha) && w.pc.Idle? && ConfigOk(cfg) && req.player == p
    requires v == OpenEscrow(w, sha, cfg, req, plan) && v.pc.Tagging?
    ensures Kept(v, p, sha)
    ensures var d, e := Drive(v, p, sha), |w.tables.escrows|;
            && e < |v.tables.escrows| == |d.tables.escrows| && |d.inv| == |w.inv|
            && AsksFor(v.tables.escrows[e], req) && AsksFor(d.tables.escrows[e], req)
            && req.market < |v.tables.markets| && Plan(w.inv, v.tables.markets[req.market].item, req.quantity, plan)
            && var row := d.tables.escrows[e];
               match row.status
               case EscrowOrdered =>
                 && Accepts(v.tables, v.tables.escrows[e]) && row.cleaned && row.order == Some(|v.tables.floor.orders|)
                 && |d.tables.floor.orders| == |v.tables.floor.orders| + 1
                 && SellsFor(d.tables.floor.orders[|v.tables.floor.orders|], row)
                 && forall i: nat :: i < |w.inv| ==> d.inv[i] == if i in plan then None else w.inv[i]
               case EscrowTagged =>
                 && !Accepts(v.tables, v.tables.escrows[e]) && d.tables.floor == v.tables.floor
                 && forall i: nat :: i < |w.inv| ==> d.inv[i] == if i in plan then ReceiptSlot(e, "") else w.inv[i]
               case _ => false
  {
    hide Kept; hide Drive; hide Good; hide StacksOk; hide Priced; hide SlotsOk; hide Sum; hide OpenEscrow;
    hide Money; hide TagAll; hide Emptied; hide WithReceipts; hide Restored;
    SubmissionStarted(w, p, cfg, req, plan, sha);
    KeptRow(v, p, sha);
    var e := |w.tables.escrows|;
    SubmissionSells(v, p, e, plan, sha);
    KeptRow(w, p, sha);
    NewEscrowUnmarked(w.tables, p, w.inv);
    PreparedHasNoReceipts(v.tables, p, w.inv, e);
    PlannedSlots(w.inv, plan, e, ItemOf(v.tables, e));
  }

  /** When the player holds less than asked for, reconciling cancels the new escrow and no slot has changed. */
  lemma ShortSubmissionCancels(w: Shop, p: Player, cfg: Config, req: Request, plan: seq<nat>, v: Shop,
                               sha: string -> int)
    requires Kept(w, p, sha) && w.pc.Idle? && ConfigOk(cfg) && req.player == p
    requires v == OpenEscrow(w, sha, cfg, req, plan) && Row(v.tables, |w.tables.escrows|)
    requires var e := |w.tables.escrows|;
             Sum(w.inv, SellableUnits(ItemOf(v.tables, e))) < v.tables.escrows[e].requested
    ensures var e := |w.tables.escrows|;
            && v.pc.Idle? && Kept(v.(pc := Begin(v, p, e)), p, sha)
            && var d := Drive(v.(pc := Begin(v, p, e)), p, sha);
               && e < |d.tables.escrows| && d.tables.escrows[e].status.EscrowCanceled?
               && d.inv == w.inv && d.tables.floor == v.tables.floor
  {
    hide Kept; hide Drive; hide Good; hide StacksOk; hide Priced; hide Step; hide Plan; hide SlotsOk; hide Sum;
    hide Settled;
    SubmissionStarted(w, p, cfg, req, plan, sha);
    KeptRow(w, p, sha);
    KeptRow(v, p, sha);
    var e := |w.tables.escrows|;
    ReconciliationFinishes(v, p, e, sha);
    NewEscrowUnmarked(w.tables, p, w.inv);
    ShortSell(v, Drive(v.(pc := Begin(v, p, e)), p, sha), p, e, sha);
  }
  // ----- no two escrows share an order -----

  /** An ordered escrow owns one order with its terms, and shares it with no other escrow. */
  lemma OneOrderEach(w: Shop, p: Player, e: Id, sha: string -> int)
    requires Kept(w, p, sha) && e < |w.tables.escrows|
    ensures var t := w.tables;
            var row := t.escrows[e];
            && (row.status.EscrowOrdered? <==> row.order.Some?)
            && (row.order.Some? ==>
                  && row.order.value < |t.floor.orders|
                  && var o := t.floor.orders[row.order.value];
                     o.side.Sell? && o.owner == row.owner && o.market == row.market && o.original == row.requested
                     && forall d: nat :: d < |t.escrows| && d != e ==> t.escrows[d].order != row.order)
  {
    hide Kept;
    KeptRow(w, p, sha);
    GoodEscrows(w.tables, sha);
    hide Good; hide Priced; hide SlotsOk; hide StacksOk; hide PhaseOk;
    assert EscrowOk(w.tables.escrows[e], w.tables.floor.orders, w.tables.floor.accounts.Keys, |w.tables.markets|);
  }
}
