/**
 Selling from an inventory: slots and database change in separate steps, any step may be the
 last before a crash, and reconciliation resumes from whatever was reached.
 */
module SellEscrow {
  import opened Sums
  import opened Domain
  import opened Matching
  import opened Settlement
  import opened Placement
  import opened Exchange
  import opened Invariants
  import opened StepsMoney
  import opened StepsTrade
  import opened Runs
  import opened History
  import opened Inventory

  /** Where `submitSellEscrow` or a reconciliation stands between two of its effects. */
  datatype Phase =
    | Idle
    | Tagging(e: Id, rest: seq<nat>) | Persisting(e: Id) | Receipting(e: Id, slot: nat) | Ordering(e: Id)
    | Removing(e: Id, slot: nat) | Clearing(e: Id, slot: nat) | Cleaning(e: Id)
    | Restoring(e: Id, slot: nat) | Canceling(e: Id)

  datatype Shop = Shop(tables: Tables, inv: seq<Slot>, pc: Phase)

  datatype Event =
    | Submit(cfg: Config, req: Request, plan: seq<nat>)
    | Resume(id: Id)
    | Go
    | Crash
    | Shuffle(slots: seq<Slot>)
    | Serve(call: Call)

  /** What the others may call meanwhile: anything that does not drive an escrow of this player. */
  predicate Others(t: Tables, p: Player, a: Action)
  {
    match a
    case DoPrepareEscrow(req) => req.player != p
    case DoMarkTagged(e, _, _) => e < |t.escrows| ==> t.escrows[e].owner != p
    case DoExecuteEscrow(e) => e < |t.escrows| ==> t.escrows[e].owner != p
    case DoCancelEscrow(e) => e < |t.escrows| ==> t.escrows[e].owner != p
    case DoCleanEscrow(e) => e < |t.escrows| ==> t.escrows[e].owner != p
    case _ => true
  }

  predicate EventOk(p: Player, x: Event)
  {
    match x
    case Submit(cfg, req, _) => ConfigOk(cfg) && req.player == p
    case Serve(call) => ConfigOk(call.cfg)
    case _ => true
  }

  /** The item of an escrow's market. */
  function ItemOf(t: Tables, e: Id): Item
    requires e < |t.escrows| && t.escrows[e].market < |t.markets|
  {
    t.markets[t.escrows[e].market].item
  }

  predicate Row(t: Tables, e: Id) { e < |t.escrows| && t.escrows[e].market < |t.markets| }

  function MarkedUnits(w: Shop, e: Id): int { Sum(w.inv, SellingUnits(e)) }

  /** How a reconciliation goes on with an escrow. */
  function Begin(w: Shop, p: Player, e: Id): Phase
  {
    if !Row(w.tables, e) || w.tables.escrows[e].owner != p then Idle
    else
      match w.tables.escrows[e].status
      case EscrowPrepared =>
        if MarkedUnits(w, e) >= w.tables.escrows[e].requested then Persisting(e)
        else if MarkedUnits(w, e) > 0 then Restoring(e, 0)
        else Canceling(e)
      case EscrowTagged => Receipting(e, 0)
      case EscrowOrdered => Removing(e, 0)
      case EscrowCanceled => Restoring(e, 0)
  }

  /** One effect: a slot write, a check, or a database transaction that may be refused. */
  ghost function Take(w: Shop): Shop
    requires Priced(w.tables) && (!w.pc.Idle? ==> Row(w.tables, w.pc.e))
  {
    var t, n := w.tables, |w.inv|;
    match w.pc
    case Idle => w
    case Tagging(e, rest) =>
      if rest == [] then w.(pc := Persisting(e))
      else if rest[0] < n then w.(inv := w.inv[rest[0] := Tag(w.inv[rest[0]], e)], pc := Tagging(e, rest[1..]))
      else w.(pc := Idle)
    case Persisting(e) =>
      var r := MarkTagged(t, e, MarkedUnits(w, e), Sum(w.inv, SellingStacks(e)));
      w.(tables := After(t, r), pc := if r.Ok? then Receipting(e, 0) else Idle)
    case Receipting(e, i) =>
      if i < n then w.(inv := w.inv[i := ReplaceSlot(w.inv[i], e, "")], pc := Receipting(e, i + 1))
      else w.(pc := if Sum(w.inv, ReceiptUnits(e)) == t.escrows[e].receipts then Ordering(e) else Idle)
    case Ordering(e) =>
      var r := ExecuteEscrow(t, e);
      w.(tables := AfterPair(t, r), pc := if r.Ok? then Removing(e, 0) else Idle)
    case Removing(e, i) =>
      if i < n then w.(inv := w.inv[i := RemoveSlot(w.inv[i], e)], pc := Removing(e, i + 1))
      else w.(pc := Clearing(e, 0))
    case Clearing(e, i) =>
      if i < n then w.(inv := w.inv[i := ClearSlot(w.inv[i], e)], pc := Clearing(e, i + 1))
      else w.(pc := if MarkedUnits(w, e) == 0 && Sum(w.inv, ReceiptUnits(e)) == 0
                       && t.escrows[e].status.EscrowOrdered? && !t.escrows[e].cleaned then Cleaning(e) else Idle)
    case Cleaning(e) => w.(tables := After(t, CleanEscrow(t, e)), pc := Idle)
    case Restoring(e, i) =>
      if i < n then w.(inv := w.inv[i := RestoreSlot(w.inv[i], e, ItemOf(t, e))], pc := Restoring(e, i + 1))
      else w.(pc := if t.escrows[e].status.EscrowPrepared? then Canceling(e) else Clearing(e, 0))
    case Canceling(e) => w.(tables := After(t, CancelEscrow(t, e)), pc := Idle)
  }

  /** `submitSellEscrow` up to the point where it knows which slots to mark. */
  ghost function OpenEscrow(w: Shop, sha: string -> int, cfg: Config, req: Request, plan: seq<nat>): Shop
    requires Priced(w.tables)
  {
    var u := Step(w.tables, cfg, sha, DoPrepareEscrow(req));
    var e := |w.tables.escrows|;
    if !w.pc.Idle? then w
    else if |u.escrows| == e || !Row(u, e) then w.(tables := u)
    else if Sum(w.inv, SellableUnits(ItemOf(u, e))) < u.escrows[e].requested then w.(tables := u)
    else if Plan(w.inv, ItemOf(u, e), u.escrows[e].requested, plan) then w.(tables := u, pc := Tagging(e, plan))
    else w.(tables := u)
  }

  ghost function Advance(w: Shop, p: Player, x: Event, sha: string -> int): Shop
    requires Priced(w.tables) && (!w.pc.Idle? ==> Row(w.tables, w.pc.e))
  {
    match x
    case Submit(cfg, req, plan) => OpenEscrow(w, sha, cfg, req, plan)
    case Resume(e) => if w.pc.Idle? then w.(pc := Begin(w, p, e)) else w
    case Go => Take(w)
    case Crash => w.(pc := Idle)
    case Shuffle(slots) => if w.pc.Idle? && multiset(slots) == multiset(w.inv) then w.(inv := slots) else w
    case Serve(call) =>
      if Others(w.tables, p, call.action) then w.(tables := Step(w.tables, call.cfg, sha, call.action)) else w
  }

  // ----- what holds between any two steps -----

  /** A marked stack belongs to an escrow of this player that has not turned it into an order yet. */
  predicate SlotOk(t: Tables, p: Player, s: Slot)
  {
    s.Some? ==>
      && 0 < s.value.amount
      && match s.value.mark
         case Selling(e) =>
           && Row(t, e) && t.escrows[e].owner == p && s.value.item == ItemOf(t, e)
           && (t.escrows[e].status.EscrowPrepared? || t.escrows[e].status.EscrowTagged?)
         case Receipt(e) =>
           && Row(t, e) && t.escrows[e].owner == p
           && (t.escrows[e].status.EscrowTagged? || (t.escrows[e].status.EscrowOrdered? && !t.escrows[e].cleaned))
         case _ => true
  }

  predicate SlotsOk(t: Tables, p: Player, inv: seq<Slot>)
  {
    forall i :: 0 <= i < |inv| ==> SlotOk(t, p, inv[i])
  }

  /** A tagged escrow finds each of its stacks or the receipt for it. */
  ghost predicate StacksOk(t: Tables, p: Player, inv: seq<Slot>)
  {
    forall e: nat :: Row(t, e) && t.escrows[e].owner == p && t.escrows[e].status.EscrowTagged? ==>
      Sum(inv, SellingStacks(e)) + Sum(inv, ReceiptUnits(e)) == t.escrows[e].receipts
  }

  predicate NoSelling(inv: seq<Slot>, e: Id, n: nat)
    requires n <= |inv|
  {
    forall i :: 0 <= i < n ==> !IsSelling(inv[i], e)
  }

  predicate NoReceipts(inv: seq<Slot>, e: Id, n: nat)
    requires n <= |inv|
  {
    forall i :: 0 <= i < n ==> !IsReceipt(inv[i], e)
  }

  /** The next step belongs where the escrow's status says. */
  predicate PhaseOk(w: Shop, p: Player)
  {
    w.pc.Idle? ||
    (&& Row(w.tables, w.pc.e) && w.tables.escrows[w.pc.e].owner == p
     && var e, s, n := w.pc.e, w.tables.escrows[w.pc.e].status, |w.inv|;
        match w.pc
        case Tagging(_, rest) =>
          s.EscrowPrepared? && Distinct(rest)
          && forall k :: 0 <= k < |rest| ==> rest[k] < n && Sellable(w.inv[rest[k]], ItemOf(w.tables, e))
        case Persisting(_) => s.EscrowPrepared?
        case Receipting(_, i) => s.EscrowTagged? && i <= n && NoSelling(w.inv, e, i)
        case Ordering(_) => s.EscrowTagged? && NoSelling(w.inv, e, n)
        case Removing(_, i) => s.EscrowOrdered? && i <= n
        case Clearing(_, i) => (s.EscrowOrdered? || s.EscrowCanceled?) && i <= n && NoReceipts(w.inv, e, i)
        case Cleaning(_) => s.EscrowOrdered? && NoReceipts(w.inv, e, n)
        case Restoring(_, i) => (s.EscrowPrepared? || s.EscrowCanceled?) && i <= n && NoSelling(w.inv, e, i)
        case Canceling(_) => s.EscrowPrepared? && NoSelling(w.inv, e, n)
        case Idle => true)
  }

  ghost predicate Kept(w: Shop, p: Player, sha: string -> int)
  {
    && Good(w.tables, sha) && Priced(w.tables)
    && SlotsOk(w.tables, p, w.inv) && StacksOk(w.tables, p, w.inv) && PhaseOk(w, p)
  }

  // ----- items -----

  /** Units of an item the player holds: free, or marked for an escrow that is still PREPARED. */
  function InHand(t: Tables, item: Item): Slot -> int
  {
    (s: Slot) =>
      if s.None? || s.value.item != item then 0
      else match s.value.mark
           case Plain => s.value.amount
           case Selling(e) => if e < |t.escrows| && t.escrows[e].status.EscrowPrepared? then s.value.amount else 0
           case _ => 0
  }

  /** Units the database holds for the player: those of TAGGED escrows, and the order and excess of ORDERED ones. */
  function InEscrow(markets: seq<Venue>, p: Player, item: Item): Escrow -> int
  {
    (e: Escrow) =>
      if e.owner == p && e.market < |markets| && markets[e.market].item == item
         && (e.status.EscrowTagged? || e.status.EscrowOrdered?) then e.tagged
      else 0
  }

  /** All units of an item that the player owned when the run began, wherever they are now. */
  ghost function Holding(w: Shop, p: Player, item: Item): int
  {
    Sum(w.inv, InHand(w.tables, item)) + Sum(w.tables.escrows, InEscrow(w.tables.markets, p, item))
  }

  // ----- steps that write one slot -----

  /** How a slot write moves the counts of stacks and receipts. */
  lemma SlotCounts(inv: seq<Slot>, i: nat, s: Slot, e: Id)
    requires i < |inv|
    ensures Sum(inv[i := s], SellingStacks(e))
            == Sum(inv, SellingStacks(e)) - SellingStacks(e)(inv[i]) + SellingStacks(e)(s)
    ensures Sum(inv[i := s], ReceiptUnits(e))
            == Sum(inv, ReceiptUnits(e)) - ReceiptUnits(e)(inv[i]) + ReceiptUnits(e)(s)
  {
    SumUpdate(inv, i, s, SellingStacks(e));
    SumUpdate(inv, i, s, ReceiptUnits(e));
  }

  /** Writing one slot keeps the stacks of every TAGGED escrow complete. */
  lemma SlotWriteKeepsStacks(t: Tables, p: Player, inv: seq<Slot>, i: nat, s: Slot)
    requires StacksOk(t, p, inv) && i < |inv|
    requires forall e: nat :: Row(t, e) && t.escrows[e].owner == p && t.escrows[e].status.EscrowTagged? ==>
               SellingStacks(e)(s) + ReceiptUnits(e)(s) == SellingStacks(e)(inv[i]) + ReceiptUnits(e)(inv[i])
    ensures StacksOk(t, p, inv[i := s])
  {
    hide Sum;
    forall e: nat | Row(t, e) && t.escrows[e].owner == p && t.escrows[e].status.EscrowTagged?
      ensures Sum(inv[i := s], SellingStacks(e)) + Sum(inv[i := s], ReceiptUnits(e)) == t.escrows[e].receipts
    {
      SlotCounts(inv, i, s, e);
    }
  }

  /** The slot a step writes, and what it writes there. */
  function Write(w: Shop): Option<(nat, Slot)>
    requires !w.pc.Idle? ==> Row(w.tables, w.pc.e)
  {
    var n := |w.inv|;
    match w.pc
    case Tagging(e, rest) => if rest != [] && rest[0] < n then Some((rest[0], Tag(w.inv[rest[0]], e))) else None
    case Receipting(e, i) => if i < n then Some((i, ReplaceSlot(w.inv[i], e, ""))) else None
    case Removing(e, i) => if i < n then Some((i, RemoveSlot(w.inv[i], e))) else None
    case Clearing(e, i) => if i < n then Some((i, ClearSlot(w.inv[i], e))) else None
    case Restoring(e, i) => if i < n then Some((i, RestoreSlot(w.inv[i], e, ItemOf(w.tables, e)))) else None
    case _ => None
  }

  /** What is written agrees with the database as what was there did. */
  lemma WrittenSlotOk(w: Shop, p: Player)
    requires PhaseOk(w, p) && SlotsOk(w.tables, p, w.inv) && (!w.pc.Idle? ==> Row(w.tables, w.pc.e)) && Write(w).Some?
    ensures var (i, s) := Write(w).value;
            && i < |w.inv| && SlotOk(w.tables, p, s)
            && forall e: nat :: Row(w.tables, e) && w.tables.escrows[e].status.EscrowTagged? ==>
                 SellingStacks(e)(s) + ReceiptUnits(e)(s) == SellingStacks(e)(w.inv[i]) + ReceiptUnits(e)(w.inv[i])
  {
    hide Sum;
    var (i, _) := Write(w).value;
    assert SlotOk(w.tables, p, w.inv[i]);
  }

  lemma WriteKeepsPhase(w: Shop, p: Player)
    requires Priced(w.tables) && PhaseOk(w, p) && (!w.pc.Idle? ==> Row(w.tables, w.pc.e)) && Write(w).Some?
    ensures var (i, s) := Write(w).value;
            i < |w.inv| && Take(w).inv == w.inv[i := s] && Take(w).tables == w.tables && PhaseOk(Take(w), p)
  {
    hide Sum; hide Priced;
  }

  lemma WriteKeeps(w: Shop, p: Player, sha: string -> int)
    requires Kept(w, p, sha) && Write(w).Some?
    ensures Kept(Take(w), p, sha)
  {
    hide Sum; hide Total; hide Good; hide Priced; hide StacksOk; hide PhaseOk; hide Take; hide Write; hide SlotOk;
    RowOfPhase(w, p);
    WrittenSlotOk(w, p);
    WriteKeepsPhase(w, p);
    var (i, s) := Write(w).value;
    SlotWriteKeepsStacks(w.tables, p, w.inv, i, s);
  }

  lemma RowOfPhase(w: Shop, p: Player)
    requires PhaseOk(w, p)
    ensures !w.pc.Idle? ==> Row(w.tables, w.pc.e)
  {
  }

  // ----- steps that change the database -----

  /** One escrow row changed under an inventory that agrees with its new status. */
  lemma RowChangeKeeps(t: Tables, u: Tables, p: Player, inv: seq<Slot>, e: Id)
    requires SlotsOk(t, p, inv) && StacksOk(t, p, inv) && Row(t, e) && u.markets == t.markets
    requires |u.escrows| == |t.escrows| && (forall i: nat :: i < |t.escrows| && i != e ==> u.escrows[i] == t.escrows[i])
    requires u.escrows[e].owner == t.escrows[e].owner && u.escrows[e].market == t.escrows[e].market
    requires NoSelling(inv, e, |inv|) || u.escrows[e].status.EscrowPrepared? || u.escrows[e].status.EscrowTagged?
    requires NoReceipts(inv, e, |inv|) || u.escrows[e].status.EscrowTagged?
             || (u.escrows[e].status.EscrowOrdered? && !u.escrows[e].cleaned)
    requires u.escrows[e].status.EscrowTagged? && u.escrows[e].owner == p ==>
               Sum(inv, SellingStacks(e)) + Sum(inv, ReceiptUnits(e)) == u.escrows[e].receipts
    ensures SlotsOk(u, p, inv) && StacksOk(u, p, inv)
  {
    hide Sum; hide SlotsOk;
    RowChangeKeepsStacks(t, u, p, inv, e);
    forall i | 0 <= i < |inv|
      ensures SlotOk(u, p, inv[i])
    {
      RowChangeKeepsSlot(t, u, p, inv, e, i);
    }
    assert SlotsOk(u, p, inv) by { AllSlotsOk(u, p, inv); }
  }

  lemma AllSlotsOk(t: Tables, p: Player, inv: seq<Slot>)
    requires forall i :: 0 <= i < |inv| ==> SlotOk(t, p, inv[i])
    ensures SlotsOk(t, p, inv)
  {
    hide SlotOk;
  }

  lemma RowChangeKeepsSlot(t: Tables, u: Tables, p: Player, inv: seq<Slot>, e: Id, i: nat)
    requires SlotsOk(t, p, inv) && i < |inv| && Row(t, e) && u.markets == t.markets
    requires |u.escrows| == |t.escrows| && (forall i: nat :: i < |t.escrows| && i != e ==> u.escrows[i] == t.escrows[i])
    requires u.escrows[e].owner == t.escrows[e].owner && u.escrows[e].market == t.escrows[e].market
    requires NoSelling(inv, e, |inv|) || u.escrows[e].status.EscrowPrepared? || u.escrows[e].status.EscrowTagged?
    requires NoReceipts(inv, e, |inv|) || u.escrows[e].status.EscrowTagged?
             || (u.escrows[e].status.EscrowOrdered? && !u.escrows[e].cleaned)
    ensures SlotOk(u, p, inv[i])
  {
    assert SlotOk(t, p, inv[i]);
    assert NoSelling(inv, e, |inv|) ==> !IsSelling(inv[i], e);
    assert NoReceipts(inv, e, |inv|) ==> !IsReceipt(inv[i], e);
  }

  lemma RowChangeKeepsStacks(t: Tables, u: Tables, p: Player, inv: seq<Slot>, e: Id)
    requires StacksOk(t, p, inv) && Row(t, e) && u.markets == t.markets && |u.escrows| == |t.escrows|
    requires forall i: nat :: i < |t.escrows| && i != e ==> u.escrows[i] == t.escrows[i]
    requires u.escrows[e].status.EscrowTagged? && u.escrows[e].owner == p ==>
               Sum(inv, SellingStacks(e)) + Sum(inv, ReceiptUnits(e)) == u.escrows[e].receipts
    ensures StacksOk(u, p, inv)
  {
    hide Sum;
    forall k: nat | Row(u, k) && u.escrows[k].owner == p && u.escrows[k].status.EscrowTagged?
      ensures Sum(inv, SellingStacks(k)) + Sum(inv, ReceiptUnits(k)) == u.escrows[k].receipts
    {
      if k != e { assert Row(t, k); }
    }
  }

  lemma PreparedHasNoReceipts(t: Tables, p: Player, inv: seq<Slot>, e: Id)
    requires SlotsOk(t, p, inv) && e < |t.escrows|
    requires t.escrows[e].status.EscrowPrepared? || t.escrows[e].status.EscrowCanceled?
    ensures NoReceipts(inv, e, |inv|) && Sum(inv, ReceiptUnits(e)) == 0
  {
    forall i | 0 <= i < |inv|
      ensures !IsReceipt(inv[i], e)
    {
      assert SlotOk(t, p, inv[i]);
    }
    SumZero(inv, ReceiptUnits(e));
  }

  lemma OrderedHasNoSelling(t: Tables, p: Player, inv: seq<Slot>, e: Id)
    requires SlotsOk(t, p, inv) && e < |t.escrows|
             && (t.escrows[e].status.EscrowOrdered? || t.escrows[e].status.EscrowCanceled?)
    ensures NoSelling(inv, e, |inv|) && Sum(inv, SellingUnits(e)) == 0
  {
    forall i | 0 <= i < |inv|
      ensures !IsSelling(inv[i], e)
    {
      assert SlotOk(t, p, inv[i]);
    }
    SumZero(inv, SellingUnits(e));
  }

  /** The shape of every escrow transaction: at most its own row changes. */
  lemma EscrowOpsMoveOneRow(t: Tables, e: Id, tagged: int, receipts: int)
    requires Priced(t) && e < |t.escrows|
    ensures var r := MarkTagged(t, e, tagged, receipts);
            r.Ok? && t.escrows[e].status.EscrowPrepared? ==>
              r.value == t.(escrows := t.escrows[e :=
                t.escrows[e].(tagged := tagged, receipts := receipts, status := EscrowTagged)])
    ensures var r := ExecuteEscrow(t, e);
            r.Ok? && t.escrows[e].status.EscrowTagged? ==>
              && r.value.0.markets == t.markets
              && r.value.0.escrows
                 == t.escrows[e := t.escrows[e].(status := EscrowOrdered, order := Some(r.value.1.order))]
  {
    hide PlaceSell; hide ExecuteEscrow; hide PricedRows;
    ExecuteEscrowShape(t, e);
  }

  lemma TransactionKeepsGood(w: Shop, sha: string -> int)
    requires Good(w.tables, sha) && Priced(w.tables) && (!w.pc.Idle? ==> Row(w.tables, w.pc.e))
    ensures Good(Take(w).tables, sha) && Priced(Take(w).tables)
  {
    hide Good; hide Priced; hide Sum; hide Total; hide MarkTagged; hide ExecuteEscrow; hide CleanEscrow;
    hide CancelEscrow;
    match w.pc {
      case Persisting(e) => MarkTaggedKeepsGood(w.tables, e, MarkedUnits(w, e), Sum(w.inv, SellingStacks(e)), sha);
      case Ordering(e) => PricedParts(w.tables); ExecuteEscrowKeepsGood(w.tables, e, sha);
      case Cleaning(e) => CleanEscrowKeepsGood(w.tables, e, sha);
      case Canceling(e) => CancelEscrowKeepsGood(w.tables, e, sha);
      case _ =>
    }
    GoodIsPriced(Take(w).tables, sha);
  }

  lemma PricedParts(t: Tables)
    requires Priced(t)
    ensures PricedRows(t.floor)
    ensures forall i :: 0 <= i < |t.escrows| && t.escrows[i].kind.Limit? ==> t.escrows[i].price > 0
  {
  }

  lemma TransactionKeeps(w: Shop, p: Player, sha: string -> int)
    requires Kept(w, p, sha) && Write(w).None?
    ensures Kept(Take(w), p, sha)
  {
    hide Sum; hide Total; hide Good; hide Priced; hide ExecuteEscrow; hide StacksOk;
    TransactionKeepsGood(w, sha);
    var u := Take(w).tables;
    if !w.pc.Idle? {
      var e := w.pc.e;
      EscrowOpsMoveOneRow(w.tables, e, MarkedUnits(w, e), Sum(w.inv, SellingStacks(e)));
      if w.tables.escrows[e].status.EscrowPrepared? { PreparedHasNoReceipts(w.tables, p, w.inv, e); }
      if w.tables.escrows[e].status.EscrowOrdered? || w.tables.escrows[e].status.EscrowCanceled? {
        OrderedHasNoSelling(w.tables, p, w.inv, e);
      }
      if w.tables.escrows[e].status.EscrowTagged? {
        StacksNow(w, p, e);
        EscrowTerms(w.tables, e, sha);
      }
      RowChangeKeeps(w.tables, u, p, w.inv, e);
    }
  }

  lemma StacksNow(w: Shop, p: Player, e: Id)
    requires StacksOk(w.tables, p, w.inv) && Row(w.tables, e) && w.tables.escrows[e].owner == p
    requires w.tables.escrows[e].status.EscrowTagged?
    ensures Sum(w.inv, SellingStacks(e)) + Sum(w.inv, ReceiptUnits(e)) == w.tables.escrows[e].receipts
  {
  }

  // ----- submitting, shuffling, serving -----

  /** Preparing an escrow adds one PREPARED row or none. */
  /** An escrow with the terms of a request. */
  predicate AsksFor(row: Escrow, req: Request)
  {
    && row.owner == req.player && row.name == req.name && row.market == req.market && row.requested == req.quantity
    && row.kind == req.kind && row.price == (if req.kind.Limit? then req.price else 0)
  }

  lemma PrepareAddsOneRow(t: Tables, cfg: Config, sha: string -> int, req: Request)
    requires Priced(t)
    ensures var u := Step(t, cfg, sha, DoPrepareEscrow(req));
            && u.markets == t.markets
            && (u.escrows == t.escrows
                || (|u.escrows| == |t.escrows| + 1 && u.escrows[..|t.escrows|] == t.escrows
                    && var row := u.escrows[|t.escrows|];
                       row.status.EscrowPrepared? && row.order.None? && row.market < |u.markets|
                       && AsksFor(row, req)))
  {
    hide Priced; hide EnsureAccount; hide Validate;
  }

  /** What a step by others leaves of this player's escrows. */
  predicate MineKept(t: Tables, u: Tables, p: Player)
  {
    && |t.escrows| <= |u.escrows| && |t.markets| <= |u.markets|
    && (forall i :: 0 <= i < |t.escrows| ==>
          u.escrows[i].owner == t.escrows[i].owner && u.escrows[i].market == t.escrows[i].market
          && (t.escrows[i].owner == p ==> u.escrows[i] == t.escrows[i]))
    && (forall i :: |t.escrows| <= i < |u.escrows| ==> u.escrows[i].owner != p)
    && (forall m :: 0 <= m < |t.markets| ==> u.markets[m].item == t.markets[m].item)
  }

  predicate DrivesEscrows(a: Action)
  {
    a.DoPrepareEscrow? || a.DoMarkTagged? || a.DoExecuteEscrow? || a.DoCancelEscrow? || a.DoCleanEscrow?
  }

  /** The other operations of the service leave the escrow table alone. */
  lemma RestLeavesEscrows(t: Tables, cfg: Config, sha: string -> int, a: Action)
    requires Priced(t) && !DrivesEscrows(a)
    ensures Step(t, cfg, sha, a).escrows == t.escrows
  {
  }

  lemma OthersEscrowOps(t: Tables, cfg: Config, sha: string -> int, a: Action, p: Player)
    requires Priced(t) && Others(t, p, a) && DrivesEscrows(a)
    ensures var u := Step(t, cfg, sha, a);
            && (forall i :: 0 <= i < |t.escrows| && t.escrows[i].owner == p && i < |u.escrows| ==>
                u.escrows[i] == t.escrows[i])
            && (forall i :: |t.escrows| <= i < |u.escrows| ==> u.escrows[i].owner != p)
  {
    hide PricedRows; hide PlaceSell;
    if a.DoPrepareEscrow? { PrepareAddsOneRow(t, cfg, sha, a.req); }
  }

  lemma OthersKeepMine(t: Tables, cfg: Config, sha: string -> int, a: Action, p: Player)
    requires Good(t, sha) && Priced(t) && ConfigOk(cfg) && Others(t, p, a)
    ensures MineKept(t, Step(t, cfg, sha, a), p)
  {
    hide Good; hide Priced; hide Step; hide FloorForward; hide ClaimsForward; hide TransfersForward;
    hide ListingsForward;
    StepMovesForward(t, cfg, sha, a);
    if DrivesEscrows(a) { OthersEscrowOps(t, cfg, sha, a, p); } else { RestLeavesEscrows(t, cfg, sha, a); }
    var u := Step(t, cfg, sha, a);
    assert forall i :: 0 <= i < |t.escrows| ==> EscrowForward(t.escrows[i], u.escrows[i]);
    assert forall m :: 0 <= m < |t.markets| ==> VenueForward(t.markets[m], u.markets[m]);
  }

  predicate AllRows(t: Tables)
  {
    forall e: nat :: e < |t.escrows| ==> Row(t, e)
  }

  lemma RowsExist(t: Tables, sha: string -> int)
    requires Good(t, sha)
    ensures AllRows(t)
  {
    hide Good;
    forall e: nat | e < |t.escrows|
      ensures Row(t, e)
    {
      EscrowTerms(t, e, sha);
    }
  }

  lemma MineKeptKeeps(w: Shop, u: Tables, p: Player)
    requires SlotsOk(w.tables, p, w.inv) && StacksOk(w.tables, p, w.inv) && PhaseOk(w, p) && MineKept(w.tables, u, p)
    requires AllRows(w.tables)
    ensures SlotsOk(u, p, w.inv) && StacksOk(u, p, w.inv) && PhaseOk(w.(tables := u), p)
  {
    hide Sum;
    forall i | 0 <= i < |w.inv|
      ensures SlotOk(u, p, w.inv[i])
    {
      assert SlotOk(w.tables, p, w.inv[i]);
    }
    forall e: nat | Row(u, e) && u.escrows[e].owner == p && u.escrows[e].status.EscrowTagged?
      ensures Sum(w.inv, SellingStacks(e)) + Sum(w.inv, ReceiptUnits(e)) == u.escrows[e].receipts
    {
      assert Row(w.tables, e);
    }
  }

  lemma ServeKeeps(w: Shop, p: Player, call: Call, sha: string -> int)
    requires Kept(w, p, sha) && ConfigOk(call.cfg) && Others(w.tables, p, call.action)
    ensures Kept(w.(tables := Step(w.tables, call.cfg, sha, call.action)), p, sha)
  {
    hide Sum; hide Total; hide Good; hide Priced; hide Step; hide SlotsOk; hide StacksOk; hide PhaseOk; hide MineKept;
    OthersKeepMine(w.tables, call.cfg, sha, call.action, p);
    RowsExist(w.tables, sha);
    var u := Step(w.tables, call.cfg, sha, call.action);
    MineKeptKeeps(w, u, p);
    StepKeepsGood(w.tables, call.cfg, sha, call.action);
    GoodIsPriced(u, sha);
  }

  /** A PREPARED row nobody has marked anything for is added. */
  lemma NewRowKeeps(w: Shop, u: Tables, p: Player)
    requires SlotsOk(w.tables, p, w.inv) && StacksOk(w.tables, p, w.inv) && AllRows(w.tables)
             && u.markets == w.tables.markets
    requires |u.escrows| == |w.tables.escrows| + 1 && u.escrows[..|w.tables.escrows|] == w.tables.escrows
    requires u.escrows[|w.tables.escrows|].status.EscrowPrepared?
    ensures SlotsOk(u, p, w.inv) && StacksOk(u, p, w.inv)
  {
    hide Sum;
    assert forall i :: 0 <= i < |w.tables.escrows| ==> u.escrows[i] == w.tables.escrows[i];
    forall i | 0 <= i < |w.inv|
      ensures SlotOk(u, p, w.inv[i])
    {
      assert SlotOk(w.tables, p, w.inv[i]);
    }
    forall e: nat | Row(u, e) && u.escrows[e].owner == p && u.escrows[e].status.EscrowTagged?
      ensures Sum(w.inv, SellingStacks(e)) + Sum(w.inv, ReceiptUnits(e)) == u.escrows[e].receipts
    {
      assert Row(w.tables, e);
    }
  }

  lemma SubmitKeeps(w: Shop, p: Player, cfg: Config, req: Request, plan: seq<nat>, sha: string -> int)
    requires Kept(w, p, sha) && ConfigOk(cfg) && req.player == p
    ensures Kept(OpenEscrow(w, sha, cfg, req, plan), p, sha)
  {
    hide Sum; hide Total; hide Good; hide Priced; hide Step; hide SlotsOk; hide StacksOk;
    var u := Step(w.tables, cfg, sha, DoPrepareEscrow(req));
    StepKeepsGood(w.tables, cfg, sha, DoPrepareEscrow(req));
    GoodIsPriced(u, sha);
    PrepareAddsOneRow(w.tables, cfg, sha, req);
    RowsExist(w.tables, sha);
    if |u.escrows| > |w.tables.escrows| {
      NewRowKeeps(w, u, p);
    } else {
      SameRowsKeep(w.tables, u, p, w.inv);
    }
  }

  lemma SameRowsKeep(t: Tables, u: Tables, p: Player, inv: seq<Slot>)
    requires SlotsOk(t, p, inv) && StacksOk(t, p, inv) && u.markets == t.markets && u.escrows == t.escrows
    ensures SlotsOk(u, p, inv) && StacksOk(u, p, inv)
  {
    hide Sum;
    forall i | 0 <= i < |inv|
      ensures SlotOk(u, p, inv[i])
    {
      assert SlotOk(t, p, inv[i]);
    }
    forall e: nat | Row(u, e) && u.escrows[e].owner == p && u.escrows[e].status.EscrowTagged?
      ensures Sum(inv, SellingStacks(e)) + Sum(inv, ReceiptUnits(e)) == u.escrows[e].receipts
    {
      assert Row(t, e);
    }
  }

  lemma ShuffleKeeps(w: Shop, p: Player, slots: seq<Slot>)
    requires SlotsOk(w.tables, p, w.inv) && StacksOk(w.tables, p, w.inv) && multiset(slots) == multiset(w.inv)
    ensures SlotsOk(w.tables, p, slots) && StacksOk(w.tables, p, slots)
  {
    hide Sum;
    forall i | 0 <= i < |slots|
      ensures SlotOk(w.tables, p, slots[i])
    {
      assert slots[i] in multiset(w.inv);
      var j :| 0 <= j < |w.inv| && w.inv[j] == slots[i];
      assert SlotOk(w.tables, p, w.inv[j]);
    }
    forall e: nat | Row(w.tables, e) && w.tables.escrows[e].owner == p && w.tables.escrows[e].status.EscrowTagged?
      ensures Sum(slots, SellingStacks(e)) + Sum(slots, ReceiptUnits(e)) == w.tables.escrows[e].receipts
    {
      SumPermuted(slots, w.inv, SellingStacks(e));
      SumPermuted(slots, w.inv, ReceiptUnits(e));
    }
  }

  lemma NothingLeftMarked(t: Tables, p: Player, inv: seq<Slot>, e: Id)
    requires SlotsOk(t, p, inv)
    ensures 0 <= Sum(inv, SellingUnits(e)) && (Sum(inv, SellingUnits(e)) == 0 ==> NoSelling(inv, e, |inv|))
  {
    hide Sum;
    forall i | 0 <= i < |inv|
      ensures 0 <= SellingUnits(e)(inv[i]) && (IsSelling(inv[i], e) ==> 0 < SellingUnits(e)(inv[i]))
    {
      assert SlotOk(t, p, inv[i]);
    }
    SumNonNegative(inv, SellingUnits(e));
  }

  /** Every step, interrupted or not, keeps marks, receipts and database in agreement. */
  lemma AdvanceKeeps(w: Shop, p: Player, x: Event, sha: string -> int)
    requires Kept(w, p, sha) && EventOk(p, x)
    ensures Kept(Advance(w, p, x, sha), p, sha)
  {
    hide Sum; hide Total; hide Good; hide Priced; hide Step; hide SlotsOk; hide StacksOk; hide Take; hide OpenEscrow;
    match x
    case Submit(cfg, req, plan) => SubmitKeeps(w, p, cfg, req, plan, sha);
    case Resume(e) => NothingLeftMarked(w.tables, p, w.inv, e);
    case Go => if Write(w).Some? { WriteKeeps(w, p, sha); } else { TransactionKeeps(w, p, sha); }
    case Crash =>
    case Shuffle(slots) =>
      if w.pc.Idle? && multiset(slots) == multiset(w.inv) { ShuffleKeeps(w, p, slots); }
    case Serve(call) => if Others(w.tables, p, call.action) { ServeKeeps(w, p, call, sha); }
  }

  // ----- conservation -----

  lemma SlotHolding(w: Shop, item: Item, i: nat, s: Slot)
    requires i < |w.inv|
    ensures Sum(w.inv[i := s], InHand(w.tables, item))
            == Sum(w.inv, InHand(w.tables, item)) - InHand(w.tables, item)(w.inv[i]) + InHand(w.tables, item)(s)
  {
    SumUpdate(w.inv, i, s, InHand(w.tables, item));
  }

  /** Marking and restoring move units between free and marked; receipts stand for units the database holds. */
  lemma WriteConserves(w: Shop, p: Player, item: Item, sha: string -> int)
    requires Kept(w, p, sha) && Write(w).Some?
    ensures Holding(Take(w), p, item) == Holding(w, p, item)
  {
    hide Sum; hide Total; hide Good; hide Priced; hide StacksOk;
    var (i, s) := Write(w).value;
    assert SlotOk(w.tables, p, w.inv[i]);
    SlotHolding(w, item, i, s);
  }

  /** Units marked for one escrow, as the others count them before and after its status changes. */
  lemma MarkedSplit(t: Tables, u: Tables, p: Player, inv: seq<Slot>, e: Id, item: Item)
    requires SlotsOk(t, p, inv) && Row(t, e) && u.markets == t.markets
    requires |u.escrows| == |t.escrows| && (forall i: nat :: i < |t.escrows| && i != e ==> u.escrows[i] == t.escrows[i])
    requires t.escrows[e].status.EscrowPrepared? && !u.escrows[e].status.EscrowPrepared?
    ensures Sum(inv, InHand(t, item))
            == Sum(inv, InHand(u, item)) + (if ItemOf(t, e) == item then Sum(inv, SellingUnits(e)) else 0)
  {
    hide Sum;
    if ItemOf(t, e) == item {
      forall i | 0 <= i < |inv|
        ensures InHand(t, item)(inv[i]) == InHand(u, item)(inv[i]) + SellingUnits(e)(inv[i])
      {
        assert SlotOk(t, p, inv[i]);
      }
      SumSplit(inv, InHand(t, item), InHand(u, item), SellingUnits(e));
    } else {
      forall i | 0 <= i < |inv|
        ensures InHand(t, item)(inv[i]) == InHand(u, item)(inv[i])
      {
        assert SlotOk(t, p, inv[i]);
      }
      SumSame(inv, InHand(t, item), InHand(u, item));
    }
  }

  lemma SameHand(t: Tables, u: Tables, inv: seq<Slot>, item: Item)
    requires |t.escrows| <= |u.escrows|
    requires forall i: nat :: i < |t.escrows| ==>
               (u.escrows[i].status.EscrowPrepared? <==> t.escrows[i].status.EscrowPrepared?)
    requires forall i :: 0 <= i < |inv| && inv[i].Some? && inv[i].value.mark.Selling? ==>
               inv[i].value.mark.id < |t.escrows|
    ensures Sum(inv, InHand(u, item)) == Sum(inv, InHand(t, item))
  {
    hide Sum;
    SumSame(inv, InHand(u, item), InHand(t, item));
  }

  lemma MarksExist(t: Tables, p: Player, inv: seq<Slot>)
    requires SlotsOk(t, p, inv)
    ensures forall i :: 0 <= i < |inv| && inv[i].Some? && inv[i].value.mark.Selling? ==>
              inv[i].value.mark.id < |t.escrows|
  {
    forall i | 0 <= i < |inv| && inv[i].Some? && inv[i].value.mark.Selling?
      ensures inv[i].value.mark.id < |t.escrows|
    {
      assert SlotOk(t, p, inv[i]);
    }
  }

  lemma RowHolding(t: Tables, e: Id, row: Escrow, p: Player, item: Item)
    requires e < |t.escrows|
    ensures Sum(t.escrows[e := row], InEscrow(t.markets, p, item))
            == Sum(t.escrows, InEscrow(t.markets, p, item)) - InEscrow(t.markets, p, item)(t.escrows[e])
               + InEscrow(t.markets, p, item)(row)
  {
    SumUpdate(t.escrows, e, row, InEscrow(t.markets, p, item));
  }

  lemma PersistConserves(w: Shop, p: Player, item: Item, sha: string -> int)
    requires Kept(w, p, sha) && w.pc.Persisting?
    ensures Holding(Take(w), p, item) == Holding(w, p, item)
  {
    hide Sum; hide Total; hide Good; hide Priced; hide StacksOk;
    var t, u, e := w.tables, Take(w).tables, w.pc.e;
    if u != t {
      EscrowOpsMoveOneRow(t, e, MarkedUnits(w, e), Sum(w.inv, SellingStacks(e)));
      MarkedSplit(t, u, p, w.inv, e, item);
      RowHolding(t, e, u.escrows[e], p, item);
    }
  }

  lemma OtherTransactionsConserve(w: Shop, p: Player, item: Item, sha: string -> int)
    requires Kept(w, p, sha) && Write(w).None? && !w.pc.Persisting?
    ensures Holding(Take(w), p, item) == Holding(w, p, item)
  {
    hide Sum; hide Total; hide Good; hide Priced; hide StacksOk; hide ExecuteEscrow;
    var t, u := w.tables, Take(w).tables;
    MarksExist(t, p, w.inv);
    if !w.pc.Idle? && u != t {
      var e := w.pc.e;
      EscrowOpsMoveOneRow(t, e, 0, 0);
      RowHolding(t, e, u.escrows[e], p, item);
      if w.pc.Canceling? {
        MarkedSplit(t, u, p, w.inv, e, item);
        NothingMarked(w.inv, e);
      } else {
        SameHand(t, u, w.inv, item);
      }
    }
  }

  lemma NothingMarked(inv: seq<Slot>, e: Id)
    requires NoSelling(inv, e, |inv|)
    ensures Sum(inv, SellingUnits(e)) == 0
  {
    SumZero(inv, SellingUnits(e));
  }

  lemma {:induction false} SumOfMine(s: seq<Escrow>, n: seq<Escrow>, f: Escrow -> int, g: Escrow -> int)
    requires |s| <= |n| && (forall i :: 0 <= i < |s| ==> g(n[i]) == f(s[i]))
    requires forall i :: |s| <= i < |n| ==> g(n[i]) == 0
    ensures Sum(n, g) == Sum(s, f)
    decreases |n|
  {
    if |s| < |n| {
      SumOfMine(s, n[..|n| - 1], f, g);
    } else if s != [] {
      SumOfMine(s[..|s| - 1], n[..|n| - 1], f, g);
    }
  }

  lemma TablesConserve(w: Shop, u: Tables, p: Player, item: Item)
    requires SlotsOk(w.tables, p, w.inv) && AllRows(w.tables) && MineKept(w.tables, u, p)
    ensures Holding(w.(tables := u), p, item) == Holding(w, p, item)
  {
    hide Sum;
    var t := w.tables;
    forall i | 0 <= i < |w.inv|
      ensures InHand(u, item)(w.inv[i]) == InHand(t, item)(w.inv[i])
    {
      assert SlotOk(t, p, w.inv[i]);
    }
    SumSame(w.inv, InHand(u, item), InHand(t, item));
    forall i: nat | i < |t.escrows|
      ensures InEscrow(u.markets, p, item)(u.escrows[i]) == InEscrow(t.markets, p, item)(t.escrows[i])
    {
      assert Row(t, i);
    }
    SumOfMine(t.escrows, u.escrows, InEscrow(t.markets, p, item), InEscrow(u.markets, p, item));
  }

  lemma SubmitConserves(w: Shop, p: Player, cfg: Config, req: Request, plan: seq<nat>, item: Item, sha: string -> int)
    requires Kept(w, p, sha) && ConfigOk(cfg) && req.player == p
    ensures Holding(OpenEscrow(w, sha, cfg, req, plan), p, item) == Holding(w, p, item)
  {
    hide Sum; hide Total; hide Good; hide Priced; hide Step; hide SlotsOk; hide StacksOk; hide Plan;
    var t, u := w.tables, Step(w.tables, cfg, sha, DoPrepareEscrow(req));
    PrepareAddsOneRow(t, cfg, sha, req);
    MarksExist(t, p, w.inv);
    SameHand(t, u, w.inv, item);
    if |u.escrows| > |t.escrows| {
      assert u.escrows == t.escrows + [u.escrows[|t.escrows|]];
      SumAppend(t.escrows, u.escrows[|t.escrows|], InEscrow(t.markets, p, item));
    }
  }

  /** No step, crash or reconciliation makes or loses a unit of any item. */
  lemma AdvanceConserves(w: Shop, p: Player, x: Event, item: Item, sha: string -> int)
    requires Kept(w, p, sha) && EventOk(p, x)
    ensures Holding(Advance(w, p, x, sha), p, item) == Holding(w, p, item)
  {
    hide Sum; hide Total; hide Good; hide Priced; hide Step; hide SlotsOk; hide StacksOk; hide Take; hide OpenEscrow;
    match x
    case Submit(cfg, req, plan) => SubmitConserves(w, p, cfg, req, plan, item, sha);
    case Go =>
      if Write(w).Some? { WriteConserves(w, p, item, sha); }
      else if w.pc.Persisting? { PersistConserves(w, p, item, sha); }
      else { OtherTransactionsConserve(w, p, item, sha); }
    case Shuffle(slots) =>
      if w.pc.Idle? && multiset(slots) == multiset(w.inv) { SumPermuted(slots, w.inv, InHand(w.tables, item)); }
    case Serve(call) =>
      if Others(w.tables, p, call.action) {
        OthersKeepMine(w.tables, call.cfg, sha, call.action, p);
        RowsExist(w.tables, sha);
        TablesConserve(w, Step(w.tables, call.cfg, sha, call.action), p, item);
      }
    case _ =>
  }

  // ----- runs -----

  predicate EventsOk(p: Player, events: seq<Event>)
  {
    forall i :: 0 <= i < |events| ==> EventOk(p, events[i])
  }

  /** The shop after a run of events. */
  ghost function Play(w: Shop, p: Player, events: seq<Event>, sha: string -> int): (v: Shop)
    requires Kept(w, p, sha) && EventsOk(p, events)
    ensures Kept(v, p, sha)
    decreases |events|
  {
    if events == [] then w
    else
      var before := Play(w, p, events[..|events| - 1], sha);
      AdvanceKeeps(before, p, events[|events| - 1], sha);
      Advance(before, p, events[|events| - 1], sha)
  }

  predicate Ready(w: Shop) { Priced(w.tables) && (!w.pc.Idle? ==> Row(w.tables, w.pc.e)) }

  /** One event from any shop; every shop of a run is ready for it. */
  ghost function Turn(w: Shop, p: Player, x: Event, sha: string -> int): Shop
  {
    if Ready(w) then Advance(w, p, x, sha) else w
  }

  lemma PlayLast(w: Shop, p: Player, events: seq<Event>, front: seq<Event>, v: Shop, sha: string -> int)
    requires Kept(w, p, sha) && EventsOk(p, events) && events != [] && front == events[..|events| - 1]
    requires Play(w, p, front, sha) == v
    ensures Ready(v) && Play(w, p, events, sha) == Turn(v, p, events[|events| - 1], sha)
  {
    hide Advance; hide EventOk; hide Good; hide Priced; hide StacksOk; hide SlotsOk;
  }

  /** The first `n` events lead from `w` to `v`. */
  ghost predicate Leads(w: Shop, p: Player, events: seq<Event>, n: nat, v: Shop, sha: string -> int)
  {
    Kept(w, p, sha) && EventsOk(p, events) && n <= |events| && Play(w, p, events[..n], sha) == v
  }

  lemma LeadsNowhere(w: Shop, p: Player, events: seq<Event>, sha: string -> int)
    requires Kept(w, p, sha) && EventsOk(p, events)
    ensures Leads(w, p, events, 0, w, sha)
  {
    hide Kept; hide EventOk;
  }

  lemma LeadsOn(w: Shop, p: Player, events: seq<Event>, n: nat, v: Shop, u: Shop, sha: string -> int)
    requires Leads(w, p, events, n, v, sha) && n < |events| && (Ready(v) ==> Turn(v, p, events[n], sha) == u)
    ensures Leads(w, p, events, n + 1, u, sha)
  {
    hide Kept; hide Turn; hide EventOk; hide Play; hide Ready;
    assert events[..n + 1][..n] == events[..n];
    PlayLast(w, p, events[..n + 1], events[..n], v, sha);
  }

  lemma LeadsToTheEnd(w: Shop, p: Player, events: seq<Event>, v: Shop, sha: string -> int)
    requires Leads(w, p, events, |events|, v, sha)
    ensures Kept(w, p, sha) && EventsOk(p, events) && Play(w, p, events, sha) == v
  {
    hide Kept; hide EventOk; hide Play;
    assert events[..|events|] == events;
  }

  /** Over any run, with crashes anywhere, the player's units of any item are conserved. */
  lemma {:induction false} ItemsAreConserved(w: Shop, p: Player, events: seq<Event>, item: Item, sha: string -> int)
    requires Kept(w, p, sha) && EventsOk(p, events)
    ensures Holding(Play(w, p, events, sha), p, item) == Holding(w, p, item)
    decreases |events|
  {
    hide Kept; hide EventOk; hide Advance; hide Holding;
    if events != [] {
      var front := events[..|events| - 1];
      ItemsAreConserved(w, p, front, item, sha);
      AdvanceConserves(Play(w, p, front, sha), p, events[|events| - 1], item, sha);
    }
  }
}
