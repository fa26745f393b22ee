/**
 Handing deliveries out: a claim is reserved in the database, tagged stacks appear in the
 inventory, the claim is completed with what arrived, and the tags are taken off again. Any
 step may be the last before a crash.
 */
module DeliveryClaims {
  import opened Sums
  import opened Domain
  import opened Matching
  import opened Settlement
  import opened Placement
  import opened Growth
  import opened Exchange
  import opened Invariants
  import opened StepsMoney
  import opened StepsTrade
  import opened Runs
  import opened History
  import opened Inventory

  /** Where `claimDeliveries` stands between two of its effects. */
  datatype Stage =
    | Idle
    | Handing(c: Id, left: int) | Completing(c: Id, delivered: int)
    | Untagging(c: Id, slot: nat) | Cleaning(c: Id) | Discarding(c: Id, slot: nat)

  datatype Counter = Counter(tables: Tables, inv: seq<Slot>, at: Stage)

  datatype Event =
    | Prepare(d: Id, quantity: int)
    | Hand(slot: nat, units: int)
    | Resume(id: Id)
    | Go
    | Crash
    | Shuffle(slots: seq<Slot>)
    | Serve(call: Call)

  predicate DrivesClaims(a: Action) { a.DoPrepareClaim? || a.DoCompleteClaim? || a.DoCleanClaim? }

  /** What the others may call meanwhile: anything that does not drive a claim of this player. */
  predicate Others(t: Tables, p: Player, a: Action)
  {
    match a
    case DoPrepareClaim(_, q, _) => q != p
    case DoCompleteClaim(c, _) => c < |t.claims| ==> t.claims[c].owner != p
    case DoCleanClaim(c) => c < |t.claims| ==> t.claims[c].owner != p
    case _ => true
  }

  predicate EventOk(x: Event) { x.Serve? ==> ConfigOk(x.call.cfg) }

  predicate Row(t: Tables, c: Id)
  {
    c < |t.claims| && t.claims[c].delivery < |t.floor.deliveries|
    && t.floor.deliveries[t.claims[c].delivery].market < |t.markets|
  }

  /** The item a claim hands out. */
  function ItemOf(t: Tables, c: Id): Item
    requires Row(t, c)
  {
    t.markets[t.floor.deliveries[t.claims[c].delivery].market].item
  }

  function Tagged(w: Counter, c: Id): int { Sum(w.inv, ClaimedUnits(c)) }

  /** How recovery goes on with a claim of this player. */
  function Begin(w: Counter, p: Player, c: Id): Stage
  {
    if !Row(w.tables, c) || w.tables.claims[c].owner != p then Idle
    else
      match w.tables.claims[c].status
      case ClaimPrepared => Completing(c, Min(Tagged(w, c), w.tables.claims[c].quantity))
      case ClaimApplied => Untagging(c, 0)
      case ClaimCanceled => Discarding(c, 0)
  }

  /** A slot that can take more units of a claim: an empty one, or a stack with the same tag. */
  function Receive(s: Slot, item: Item, c: Id, units: int): Slot
  {
    Some(Stack(item, Claimed(c), Amount(s) + units))
  }

  function Take(w: Counter): Counter
    requires w.at.Untagging? || w.at.Discarding? ==> w.at.slot <= |w.inv|
  {
    var t, n := w.tables, |w.inv|;
    match w.at
    case Idle => w
    case Handing(c, left) =>
      w.(at := if c < |t.claims| then Completing(c, t.claims[c].quantity - left) else Idle)
    case Completing(c, delivered) =>
      var r := CompleteClaim(t, c, delivered);
      w.(tables := After(t, r), at := if r.Ok? && delivered > 0 then Untagging(c, 0) else Idle)
    case Untagging(c, i) =>
      if i < n then w.(inv := w.inv[i := UnclaimSlot(w.inv[i], c)], at := Untagging(c, i + 1))
      else w.(at := if Tagged(w, c) == 0 then Cleaning(c) else Idle)
    case Cleaning(c) => w.(tables := After(t, CleanClaim(t, c)), at := Idle)
    case Discarding(c, i) =>
      if i < n then w.(inv := w.inv[i := DiscardSlot(w.inv[i], c)], at := Discarding(c, i + 1)) else w.(at := Idle)
  }

  function Advance(w: Counter, p: Player, x: Event, sha: string -> int): Counter
    requires Priced(w.tables) && (w.at.Untagging? || w.at.Discarding? ==> w.at.slot <= |w.inv|)
  {
    match x
    case Prepare(d, quantity) =>
      if !w.at.Idle? then w
      else
        var r := PrepareClaim(w.tables, d, p, quantity);
        if r.Ok? then w.(tables := r.value.0, at := Handing(r.value.1, r.value.0.claims[r.value.1].quantity)) else w
    case Hand(i, units) =>
      if w.at.Handing? && Row(w.tables, w.at.c) && i < |w.inv| && 0 < units <= w.at.left
         && (w.inv[i].None? || IsClaimed(w.inv[i], w.at.c)) then
        w.(inv := w.inv[i := Receive(w.inv[i], ItemOf(w.tables, w.at.c), w.at.c, units)],
           at := Handing(w.at.c, w.at.left - units))
      else w
    case Resume(c) => if w.at.Idle? then w.(at := Begin(w, p, c)) else w
    case Go => Take(w)
    case Crash => w.(at := Idle)
    case Shuffle(slots) => if w.at.Idle? && multiset(slots) == multiset(w.inv) then w.(inv := slots) else w
    case Serve(call) =>
      if Others(w.tables, p, call.action) then w.(tables := Step(w.tables, call.cfg, sha, call.action)) else w
  }

  // ----- what holds between any two steps -----

  /** A tagged stack belongs to a claim of this player whose tags have not been cleaned up. */
  predicate SlotOk(t: Tables, p: Player, s: Slot)
  {
    s.Some? ==>
      && 0 < s.value.amount
      && match s.value.mark
         case Claimed(c) =>
           && Row(t, c) && t.claims[c].owner == p && s.value.item == ItemOf(t, c)
           && (t.claims[c].status.ClaimPrepared? || (t.claims[c].status.ClaimApplied? && !t.claims[c].cleaned))
         case _ => true
  }

  predicate SlotsOk(t: Tables, p: Player, inv: seq<Slot>)
  {
    forall i :: 0 <= i < |inv| ==> SlotOk(t, p, inv[i])
  }

  /** No claim of the player has more units in the inventory than it prepared. */
  ghost predicate UnitsOk(t: Tables, p: Player, inv: seq<Slot>)
  {
    forall c: nat :: c < |t.claims| && t.claims[c].owner == p && t.claims[c].status.ClaimPrepared? ==>
      Sum(inv, ClaimedUnits(c)) <= t.claims[c].quantity
  }

  predicate NoTags(inv: seq<Slot>, c: Id, n: nat)
    requires n <= |inv|
  {
    forall i :: 0 <= i < n ==> !IsClaimed(inv[i], c)
  }

  ghost predicate StageOk(w: Counter, p: Player)
  {
    w.at.Idle? ||
    (&& Row(w.tables, w.at.c) && w.tables.claims[w.at.c].owner == p
     && var c, claim, n := w.at.c, w.tables.claims[w.at.c], |w.inv|;
        match w.at
        case Handing(_, left) => claim.status.ClaimPrepared? && 0 <= left && Tagged(w, c) == claim.quantity - left
        case Completing(_, delivered) => claim.status.ClaimPrepared? && delivered == Tagged(w, c)
        case Untagging(_, i) => claim.status.ClaimApplied? && i <= n && NoTags(w.inv, c, i)
        case Cleaning(_) => claim.status.ClaimApplied? && NoTags(w.inv, c, n)
        case Discarding(_, i) => claim.status.ClaimCanceled? && i <= n
        case Idle => true)
  }

  ghost predicate Kept(w: Counter, p: Player, sha: string -> int)
  {
    && Good(w.tables, sha) && Priced(w.tables)
    && SlotsOk(w.tables, p, w.inv) && UnitsOk(w.tables, p, w.inv) && StageOk(w, p)
  }

  // ----- what is conserved -----

  /** Units of an item the player really has: free ones, and tagged ones the database counts as handed out. */
  function InHand(t: Tables, item: Item): Slot -> int
  {
    (s: Slot) =>
      if s.None? || s.value.item != item then 0
      else match s.value.mark
           case Plain => s.value.amount
           case Claimed(c) => if c < |t.claims| && t.claims[c].status.ClaimApplied? then s.value.amount else 0
           case _ => 0
  }

  function HandedOut(markets: seq<Venue>, p: Player, item: Item): Delivery -> int
  {
    (d: Delivery) => if d.owner == p && d.market < |markets| && markets[d.market].item == item then d.claimed else 0
  }

  /** Units in the inventory beyond those the database booked as handed out. */
  ghost function Unexplained(w: Counter, p: Player, item: Item): int
  {
    Sum(w.inv, InHand(w.tables, item)) - Sum(w.tables.floor.deliveries, HandedOut(w.tables.markets, p, item))
  }

  // ----- steps that write one slot -----

  lemma SlotWrite(w: Counter, i: nat, s: Slot, c: Id, item: Item)
    requires i < |w.inv|
    ensures Sum(w.inv[i := s], ClaimedUnits(c))
            == Sum(w.inv, ClaimedUnits(c)) - ClaimedUnits(c)(w.inv[i]) + ClaimedUnits(c)(s)
    ensures Sum(w.inv[i := s], InHand(w.tables, item))
            == Sum(w.inv, InHand(w.tables, item)) - InHand(w.tables, item)(w.inv[i]) + InHand(w.tables, item)(s)
  {
    SumUpdate(w.inv, i, s, ClaimedUnits(c));
    SumUpdate(w.inv, i, s, InHand(w.tables, item));
  }

  /** Writing a slot that adds no unit to any PREPARED claim but the one being handed out. */
  lemma SlotWriteKeepsUnits(w: Counter, p: Player, i: nat, s: Slot, c: Id)
    requires UnitsOk(w.tables, p, w.inv) && i < |w.inv|
    requires forall k: nat :: k != c ==> ClaimedUnits(k)(s) <= ClaimedUnits(k)(w.inv[i])
    requires c < |w.tables.claims| && w.tables.claims[c].status.ClaimPrepared? ==>
               Sum(w.inv[i := s], ClaimedUnits(c)) <= w.tables.claims[c].quantity
    ensures UnitsOk(w.tables, p, w.inv[i := s])
  {
    hide Sum;
    forall k: nat | k < |w.tables.claims| && w.tables.claims[k].owner == p && w.tables.claims[k].status.ClaimPrepared?
      ensures Sum(w.inv[i := s], ClaimedUnits(k)) <= w.tables.claims[k].quantity
    {
      SlotWrite(w, i, s, k, Item("", 0, ""));
    }
  }

  lemma HandKeeps(w: Counter, p: Player, i: nat, units: int, item: Item, sha: string -> int)
    requires Kept(w, p, sha)
    ensures Kept(Advance(w, p, Hand(i, units), sha), p, sha)
    ensures Unexplained(Advance(w, p, Hand(i, units), sha), p, item) == Unexplained(w, p, item)
  {
    hide Sum; hide Total; hide Good; hide Priced; hide UnitsOk; hide Row;
    var v := Advance(w, p, Hand(i, units), sha);
    if v != w {
      var s := v.inv[i];
      assert SlotOk(w.tables, p, w.inv[i]);
      SlotWrite(w, i, s, w.at.c, item);
      SlotWriteKeepsUnits(w, p, i, s, w.at.c);
    }
  }

  lemma SlotStepKeeps(w: Counter, p: Player, item: Item, sha: string -> int)
    requires Kept(w, p, sha) && (w.at.Untagging? || w.at.Discarding?) && w.at.slot < |w.inv|
    ensures Kept(Take(w), p, sha) && Unexplained(Take(w), p, item) == Unexplained(w, p, item)
  {
    hide Sum; hide Total; hide Good; hide Priced; hide UnitsOk;
    var i, c := w.at.slot, w.at.c;
    var s := Take(w).inv[i];
    assert SlotOk(w.tables, p, w.inv[i]);
    SlotWrite(w, i, s, c, item);
    SlotWriteKeepsUnits(w, p, i, s, c);
  }

  // ----- steps that change the database -----

  lemma NoUnitsTagged(t: Tables, p: Player, inv: seq<Slot>, c: Id)
    requires SlotsOk(t, p, inv)
    ensures 0 <= Sum(inv, ClaimedUnits(c)) && (Sum(inv, ClaimedUnits(c)) == 0 <==> NoTags(inv, c, |inv|))
  {
    hide Sum;
    forall i | 0 <= i < |inv|
      ensures 0 <= ClaimedUnits(c)(inv[i]) && (IsClaimed(inv[i], c) ==> 0 < ClaimedUnits(c)(inv[i]))
    {
      assert SlotOk(t, p, inv[i]);
    }
    SumNonNegative(inv, ClaimedUnits(c));
    if NoTags(inv, c, |inv|) { SumZero(inv, ClaimedUnits(c)); }
  }

  /** One claim's row changed, and its delivery's counters; the inventory agrees with the new status. */
  lemma ClaimChangeKeeps(t: Tables, u: Tables, p: Player, inv: seq<Slot>, c: Id)
    requires SlotsOk(t, p, inv) && UnitsOk(t, p, inv) && Row(t, c) && u.markets == t.markets
    requires |u.claims| == |t.claims| && (forall k: nat :: k < |t.claims| && k != c ==> u.claims[k] == t.claims[k])
    requires u.claims[c].owner == t.claims[c].owner && u.claims[c].delivery == t.claims[c].delivery
    requires |u.floor.deliveries| == |t.floor.deliveries|
    requires forall d :: 0 <= d < |t.floor.deliveries| ==> u.floor.deliveries[d].market == t.floor.deliveries[d].market
    requires !u.claims[c].status.ClaimPrepared?
    requires NoTags(inv, c, |inv|) || (u.claims[c].status.ClaimApplied? && !u.claims[c].cleaned)
    ensures SlotsOk(u, p, inv) && UnitsOk(u, p, inv)
  {
    hide Sum;
    forall i | 0 <= i < |inv|
      ensures SlotOk(u, p, inv[i])
    {
      assert SlotOk(t, p, inv[i]);
    }
  }

  /** The rows a completion or a cleaning changes. */
  lemma ClaimOpsChangeOneRow(t: Tables, c: Id, delivered: int)
    requires c < |t.claims|
    ensures match CompleteClaim(t, c, delivered)
            case Err(_) => true
            case Ok(u) =>
              t.claims[c].status.ClaimPrepared? ==>
                && u.markets == t.markets && t.claims[c].delivery < |t.floor.deliveries|
                && u.claims == t.claims[c := CompletedClaim(t.claims[c], delivered)]
                && var d := t.claims[c].delivery;
                   u.floor.deliveries == t.floor.deliveries[d := t.floor.deliveries[d].(
                     claimed := t.floor.deliveries[d].claimed + delivered,
                     reserved := t.floor.deliveries[d].reserved - t.claims[c].quantity)]
    ensures t.claims[c].status.ClaimApplied? ==>
              CleanClaim(t, c) == Ok(t.(claims := t.claims[c := t.claims[c].(cleaned := true)]))
  {
  }

  /** Units of one claim move from "reserved" to "handed out" when it is completed. */
  lemma CompletedHand(t: Tables, u: Tables, p: Player, inv: seq<Slot>, c: Id, item: Item)
    requires SlotsOk(t, p, inv) && Row(t, c) && |u.claims| == |t.claims|
    requires forall k: nat :: k < |t.claims| && k != c ==> u.claims[k] == t.claims[k]
    requires t.claims[c].status.ClaimPrepared?
    ensures Sum(inv, InHand(u, item)) == Sum(inv, InHand(t, item))
              + (if u.claims[c].status.ClaimApplied? && ItemOf(t, c) == item then Sum(inv, ClaimedUnits(c)) else 0)
  {
    hide Sum;
    if u.claims[c].status.ClaimApplied? && ItemOf(t, c) == item {
      forall i | 0 <= i < |inv|
        ensures InHand(u, item)(inv[i]) == InHand(t, item)(inv[i]) + ClaimedUnits(c)(inv[i])
      {
        assert SlotOk(t, p, inv[i]);
      }
      SumSplit(inv, InHand(u, item), InHand(t, item), ClaimedUnits(c));
    } else {
      forall i | 0 <= i < |inv|
        ensures InHand(u, item)(inv[i]) == InHand(t, item)(inv[i])
      {
        assert SlotOk(t, p, inv[i]);
      }
      SumSame(inv, InHand(u, item), InHand(t, item));
    }
  }

  lemma GoodClaimRow(t: Tables, c: Id, sha: string -> int)
    requires Good(t, sha) && c < |t.claims|
    ensures Row(t, c) && t.claims[c].owner == t.floor.deliveries[t.claims[c].delivery].owner && 0 < t.claims[c].quantity
    ensures t.claims[c].status.ClaimPrepared? ==> !t.claims[c].cleaned
  {
    hide Good; hide Sum; hide Total; hide Sound;
    GoodClaims(t, sha);
    GoodIsSound(t, sha);
    LinkedRows(t.floor, t.markets);
    assert ClaimOk(t.claims[c], t.floor.deliveries);
  }

  lemma CompleteKeeps(w: Counter, p: Player, item: Item, sha: string -> int)
    requires Kept(w, p, sha) && w.at.Completing?
    ensures Kept(Take(w), p, sha) && Unexplained(Take(w), p, item) == Unexplained(w, p, item)
  {
    hide Sum; hide Total; hide Good; hide Priced; hide CompleteClaim;
    var t, u, c, delivered := w.tables, Take(w).tables, w.at.c, w.at.delivered;
    CompleteClaimKeepsGood(t, c, delivered, sha);
    GoodIsPriced(u, sha);
    GoodClaimRow(t, c, sha);
    ClaimOpsChangeOneRow(t, c, delivered);
    NoUnitsTagged(t, p, w.inv, c);
    if CompleteClaim(t, c, delivered).Ok? {
      ClaimChangeKeeps(t, u, p, w.inv, c);
      CompletedHand(t, u, p, w.inv, c, item);
      var d := t.claims[c].delivery;
      SumUpdate(t.floor.deliveries, d, u.floor.deliveries[d], HandedOut(t.markets, p, item));
    }
  }

  lemma CleanKeeps(w: Counter, p: Player, item: Item, sha: string -> int)
    requires Kept(w, p, sha) && w.at.Cleaning?
    ensures Kept(Take(w), p, sha) && Unexplained(Take(w), p, item) == Unexplained(w, p, item)
  {
    hide Sum; hide Total; hide Good; hide Priced; hide CleanClaim;
    var t, u, c := w.tables, Take(w).tables, w.at.c;
    CleanClaimKeepsGood(t, c, sha);
    GoodIsPriced(u, sha);
    ClaimOpsChangeOneRow(t, c, 0);
    ClaimChangeKeeps(t, u, p, w.inv, c);
    SumSame(w.inv, InHand(u, item), InHand(t, item));
  }

  lemma OtherTakesKeep(w: Counter, p: Player, item: Item, sha: string -> int)
    requires Kept(w, p, sha) && !w.at.Completing? && !w.at.Cleaning?
    requires w.at.Untagging? || w.at.Discarding? ==> w.at.slot == |w.inv|
    ensures Kept(Take(w), p, sha) && Unexplained(Take(w), p, item) == Unexplained(w, p, item)
  {
    hide Sum; hide Total; hide Good; hide Priced; hide UnitsOk; hide SlotsOk;
  }

  lemma PrepareKeeps(w: Counter, p: Player, d: Id, quantity: int, item: Item, sha: string -> int)
    requires Kept(w, p, sha)
    ensures Kept(Advance(w, p, Prepare(d, quantity), sha), p, sha)
    ensures Unexplained(Advance(w, p, Prepare(d, quantity), sha), p, item) == Unexplained(w, p, item)
  {
    hide Sum; hide Total; hide Good; hide Priced;
    var t := w.tables;
    var r := PrepareClaim(t, d, p, quantity);
    PrepareClaimKeepsGood(t, d, p, quantity, sha);
    GoodIsPriced(AfterPair(t, r), sha);
    if r.Ok? && w.at.Idle? {
      var u, c := r.value.0, r.value.1;
      GoodClaimRow(u, c, sha);
      forall i | 0 <= i < |w.inv|
        ensures SlotOk(u, p, w.inv[i]) && ClaimedUnits(c)(w.inv[i]) == 0
        ensures InHand(u, item)(w.inv[i]) == InHand(t, item)(w.inv[i])
      {
        assert SlotOk(t, p, w.inv[i]);
      }
      SumZero(w.inv, ClaimedUnits(c));
      SumSame(w.inv, InHand(u, item), InHand(t, item));
      SumUpdate(t.floor.deliveries, d, u.floor.deliveries[d], HandedOut(t.markets, p, item));
      forall k: nat | k < |u.claims| && u.claims[k].owner == p && u.claims[k].status.ClaimPrepared?
        ensures Sum(w.inv, ClaimedUnits(k)) <= u.claims[k].quantity
      {
        if k < |t.claims| { assert u.claims[k] == t.claims[k]; }
      }
    }
  }

  // ----- the other operations of the service -----

  /** Everything but the claim operations leaves the claims alone and only adds deliveries. */
  predicate ClaimsUntouched(t: Tables, u: Tables)
  {
    u.claims == t.claims && t.floor.deliveries <= u.floor.deliveries
  }

  lemma MainLeavesClaims(t: Tables, cfg: Config, sha: string -> int, a: Action)
    requires Priced(t) && !DrivesClaims(a)
    ensures ClaimsUntouched(t, Main(t, cfg, sha, a))
  {
    hide PricedRows; hide Validate; hide Place; hide CancelOrder; hide Retire; hide ExecuteEscrow;
    match a
    case DoPlace(req) =>
      if Validate(cfg, req).None? { PlaceLeavesClaims(t, cfg, req); }
    case DoCancel(id, p, administrator) => CancelLeavesClaims(t, id, p, administrator);
    case DoRetire(m) => RetireLeavesClaims(t, m);
    case DoExecuteEscrow(e) => ExecuteLeavesClaims(t, e);
    case _ =>
      hide Main;
      RestLeavesClaims(t, cfg, sha, a);
  }

  lemma CancelLeavesClaims(t: Tables, id: Id, p: Player, administrator: bool)
    ensures ClaimsUntouched(t, After(t, CancelOrder(t, id, p, administrator)))
  {
    hide Release; hide Grown;
    var r := CancelOrder(t, id, p, administrator);
    if r.Ok? {
      ReleaseGrows(t.floor, id, OrderCancelRefund, OrderCanceled);
      GrownDeliveries(t.floor, r.value.floor);
    }
  }

  lemma RetireLeavesClaims(t: Tables, m: Id)
    ensures ClaimsUntouched(t, After(t, Retire(t, m)))
  {
    hide ReleaseAll; hide RestingOf; hide Grown;
    var r := Retire(t, m);
    if r.Ok? {
      ReleaseAllGrows(t.floor, RestingOf(t.floor.orders, m, |t.floor.orders|));
      GrownDeliveries(t.floor, r.value.floor);
    }
  }

  lemma RestLeavesClaims(t: Tables, cfg: Config, sha: string -> int, a: Action)
    requires Priced(t) && !DrivesClaims(a) && !a.DoPlace? && !a.DoCancel? && !a.DoRetire? && !a.DoExecuteEscrow?
    ensures ClaimsUntouched(t, Main(t, cfg, sha, a))
  {
    hide PricedRows; hide Validate; hide Activate; hide Fingerprint; hide Unbind; hide UnbindAll;
    if a.DoActivate? { ActivateLeavesClaims(t, sha, a.target, a.kind, a.item); }
  }

  lemma ActivateLeavesClaims(t: Tables, sha: string -> int, target: string, kind: TargetKind, item: Item)
    ensures ClaimsUntouched(t, AfterPair(t, Activate(t, sha, target, kind, item)))
  {
    hide FindBook; hide FindResumable; hide Fingerprint;
  }

  lemma GrownDeliveries(f: Floor, g: Floor)
    requires Grown(f, g)
    ensures f.deliveries <= g.deliveries
  {
  }

  lemma PlaceLeavesClaims(t: Tables, cfg: Config, req: Request)
    requires PricedRows(t.floor) && Validate(cfg, req).None?
    ensures ClaimsUntouched(t, AfterPair(t, Place(t, req)))
  {
    hide PlaceBuy; hide PlaceSell; hide PricedRows; hide Grown;
    var r := Place(t, req);
    if r.Ok? {
      if req.side.Buy? { PlaceBuyGrows(t.floor, t.markets, req); } else { PlaceSellGrows(t.floor, t.markets, req); }
      GrownDeliveries(t.floor, r.value.0.floor);
    }
  }

  lemma ExecuteLeavesClaims(t: Tables, e: Id)
    requires Priced(t)
    ensures ClaimsUntouched(t, AfterPair(t, ExecuteEscrow(t, e)))
  {
    hide PlaceSell; hide PricedRows; hide Grown; hide ExecuteEscrow;
    ExecuteEscrowShape(t, e);
    if e < |t.escrows| && t.escrows[e].status.EscrowTagged? {
      var req := EscrowRequest(t.escrows[e]);
      PlaceSellGrows(t.floor, t.markets, req);
      var r := PlaceSell(t.floor, t.markets, req);
      if r.Ok? { GrownDeliveries(t.floor, r.value.0); }
    }
  }

  lemma StepLeavesClaims(t: Tables, cfg: Config, sha: string -> int, a: Action)
    requires Good(t, sha) && Priced(t) && ConfigOk(cfg) && !DrivesClaims(a)
    ensures var u := Step(t, cfg, sha, a);
            && ClaimsUntouched(t, u) && |t.markets| <= |u.markets|
            && forall m :: 0 <= m < |t.markets| ==> u.markets[m].item == t.markets[m].item
  {
    hide Good; hide Priced; hide Main; hide EnsureAccount; hide FloorForward; hide ClaimsForward; hide EscrowsForward;
    hide TransfersForward; hide ListingsForward; hide Opens;
    OpenedKeepsGood(t, cfg, a, sha);
    MainLeavesClaims(Opened(t, cfg, a), cfg, sha, a);
    StepMovesForward(t, cfg, sha, a);
    var u := Step(t, cfg, sha, a);
    assert forall m :: 0 <= m < |t.markets| ==> VenueForward(t.markets[m], u.markets[m]);
  }

  /** What a step by others leaves of this player's claims and deliveries. */
  predicate MineUntouched(t: Tables, u: Tables, p: Player)
  {
    && |t.claims| <= |u.claims| && |t.floor.deliveries| <= |u.floor.deliveries| && |t.markets| <= |u.markets|
    && (forall c :: 0 <= c < |t.claims| ==>
          && u.claims[c].owner == t.claims[c].owner
          && (t.claims[c].owner == p ==> u.claims[c] == t.claims[c]))
    && (forall c :: |t.claims| <= c < |u.claims| ==> u.claims[c].owner != p)
    && (forall d :: 0 <= d < |t.floor.deliveries| ==>
          && SameGoods(t.floor.deliveries[d], u.floor.deliveries[d])
          && (t.floor.deliveries[d].owner == p ==> u.floor.deliveries[d].claimed == t.floor.deliveries[d].claimed))
    && (forall d :: |t.floor.deliveries| <= d < |u.floor.deliveries| ==> u.floor.deliveries[d].claimed == 0)
    && (forall m :: 0 <= m < |t.markets| ==> u.markets[m].item == t.markets[m].item)
  }

  lemma {:induction false} SumOfMine(s: seq<Delivery>, n: seq<Delivery>, f: Delivery -> int, g: Delivery -> int)
    requires |s| <= |n| && (forall i :: 0 <= i < |s| ==> g(n[i]) == f(s[i]))
    requires forall i :: |s| <= i < |n| ==> g(n[i]) == 0
    ensures Sum(n, g) == Sum(s, f)
    decreases |n|
  {
    if |s| < |n| {
      SumOfMine(s, n[..|n| - 1], f, g);
    } else if s != [] {
      SumOfMine(s[..|s| - 1], n[..|n| - 1], f, g);
    }
  }

  /** New deliveries are unclaimed. */
  lemma NewDeliveriesUnclaimed(t: Tables, u: Tables, sha: string -> int)
    requires Good(t, sha) && Good(u, sha) && ClaimsUntouched(t, u)
    ensures forall d :: |t.floor.deliveries| <= d < |u.floor.deliveries| ==> u.floor.deliveries[d].claimed == 0
  {
    hide Good; hide Sum; hide Sound;
    GoodClaims(t, sha);
    GoodClaims(u, sha);
    forall d: nat | |t.floor.deliveries| <= d < |u.floor.deliveries|
      ensures u.floor.deliveries[d].claimed == 0
    {
      assert DeliveryOk(u.claims, u.floor.deliveries[d], d);
      forall c | 0 <= c < |u.claims|
        ensures AppliedOf(d)(u.claims[c]) == 0
      {
        assert ClaimOk(t.claims[c], t.floor.deliveries);
      }
      SumZero(u.claims, AppliedOf(d));
    }
  }

  /** A claim another player prepares, completes or cleans is about that player's delivery. */
  lemma OthersClaim(t: Tables, cfg: Config, sha: string -> int, a: Action, p: Player)
    requires Good(t, sha) && Priced(t) && Others(t, p, a) && DrivesClaims(a)
    ensures MineUntouched(t, Step(t, cfg, sha, a), p)
  {
    hide Good; hide Priced; hide MineUntouched; hide CompleteClaim; hide PrepareClaim; hide CleanClaim;
    match a
    case DoPrepareClaim(d, q, quantity) => OthersPrepare(t, d, q, quantity, p);
    case DoCompleteClaim(c, delivered) => OthersComplete(t, c, delivered, p, sha);
    case DoCleanClaim(c) => OthersClean(t, c, p);
  }

  lemma OthersPrepare(t: Tables, d: Id, q: Player, quantity: int, p: Player)
    requires q != p
    ensures MineUntouched(t, AfterPair(t, PrepareClaim(t, d, q, quantity)), p)
  {
  }

  lemma OthersComplete(t: Tables, c: Id, delivered: int, p: Player, sha: string -> int)
    requires Good(t, sha) && (c < |t.claims| ==> t.claims[c].owner != p)
    ensures MineUntouched(t, After(t, CompleteClaim(t, c, delivered)), p)
  {
    hide Good;
    if c < |t.claims| { GoodClaimRow(t, c, sha); }
  }

  lemma OthersClean(t: Tables, c: Id, p: Player)
    requires c < |t.claims| ==> t.claims[c].owner != p
    ensures MineUntouched(t, After(t, CleanClaim(t, c)), p)
  {
  }

  lemma OthersLeaveMine(t: Tables, cfg: Config, sha: string -> int, a: Action, p: Player)
    requires Good(t, sha) && Priced(t) && ConfigOk(cfg) && Others(t, p, a)
    ensures MineUntouched(t, Step(t, cfg, sha, a), p)
  {
    hide Good; hide Priced; hide Step; hide Sum;
    if DrivesClaims(a) {
      OthersClaim(t, cfg, sha, a, p);
    } else {
      StepLeavesClaims(t, cfg, sha, a);
      StepKeepsGood(t, cfg, sha, a);
      NewDeliveriesUnclaimed(t, Step(t, cfg, sha, a), sha);
    }
  }

  lemma UntouchedKeeps(w: Counter, u: Tables, p: Player, item: Item, sha: string -> int)
    requires Kept(w, p, sha) && MineUntouched(w.tables, u, p)
    requires forall d :: 0 <= d < |w.tables.floor.deliveries| ==>
               w.tables.floor.deliveries[d].market < |w.tables.markets|
    ensures SlotsOk(u, p, w.inv) && UnitsOk(u, p, w.inv) && StageOk(w.(tables := u), p)
    ensures Unexplained(w.(tables := u), p, item) == Unexplained(w, p, item)
  {
    hide Sum; hide Total; hide Good; hide Priced;
    var t := w.tables;
    forall i | 0 <= i < |w.inv|
      ensures SlotOk(u, p, w.inv[i]) && InHand(u, item)(w.inv[i]) == InHand(t, item)(w.inv[i])
    {
      assert SlotOk(t, p, w.inv[i]);
    }
    SumSame(w.inv, InHand(u, item), InHand(t, item));
    SumOfMine(t.floor.deliveries, u.floor.deliveries, HandedOut(t.markets, p, item), HandedOut(u.markets, p, item));
  }

  lemma DeliveriesHaveMarkets(t: Tables, sha: string -> int)
    requires Good(t, sha)
    ensures forall d :: 0 <= d < |t.floor.deliveries| ==> t.floor.deliveries[d].market < |t.markets|
  {
    hide Good; hide Sum; hide Sound;
    GoodIsSound(t, sha);
    LinkedRows(t.floor, t.markets);
  }

  lemma ServeKeeps(w: Counter, p: Player, call: Call, item: Item, sha: string -> int)
    requires Kept(w, p, sha) && ConfigOk(call.cfg) && Others(w.tables, p, call.action)
    ensures var v := w.(tables := Step(w.tables, call.cfg, sha, call.action));
            Kept(v, p, sha) && Unexplained(v, p, item) == Unexplained(w, p, item)
  {
    hide Sum; hide Total; hide Good; hide Priced; hide Step; hide SlotsOk; hide UnitsOk; hide StageOk; hide Unexplained;
    hide MineUntouched; hide Others;
    var t, u := w.tables, Step(w.tables, call.cfg, sha, call.action);
    StepKeepsGood(t, call.cfg, sha, call.action);
    GoodIsPriced(u, sha);
    OthersLeaveMine(t, call.cfg, sha, call.action, p);
    DeliveriesHaveMarkets(t, sha);
    UntouchedKeeps(w, u, p, item, sha);
  }

  lemma ShuffleKeeps(w: Counter, p: Player, slots: seq<Slot>, item: Item)
    requires SlotsOk(w.tables, p, w.inv) && UnitsOk(w.tables, p, w.inv) && multiset(slots) == multiset(w.inv)
    ensures SlotsOk(w.tables, p, slots) && UnitsOk(w.tables, p, slots)
    ensures Sum(slots, InHand(w.tables, item)) == Sum(w.inv, InHand(w.tables, item))
  {
    hide Sum;
    forall i | 0 <= i < |slots|
      ensures SlotOk(w.tables, p, slots[i])
    {
      assert slots[i] in multiset(w.inv);
      var j :| 0 <= j < |w.inv| && w.inv[j] == slots[i];
      assert SlotOk(w.tables, p, w.inv[j]);
    }
    forall c: nat | c < |w.tables.claims| && w.tables.claims[c].owner == p && w.tables.claims[c].status.ClaimPrepared?
      ensures Sum(slots, ClaimedUnits(c)) <= w.tables.claims[c].quantity
    {
      SumPermuted(slots, w.inv, ClaimedUnits(c));
    }
    SumPermuted(slots, w.inv, InHand(w.tables, item));
  }

  lemma ResumeKeeps(w: Counter, p: Player, c: Id, sha: string -> int)
    requires Kept(w, p, sha) && w.at.Idle?
    ensures Kept(w.(at := Begin(w, p, c)), p, sha)
  {
    hide Sum; hide Total; hide Good; hide Priced; hide SlotsOk;
    if c < |w.tables.claims| && w.tables.claims[c].owner == p && w.tables.claims[c].status.ClaimPrepared? {
      assert Sum(w.inv, ClaimedUnits(c)) <= w.tables.claims[c].quantity;
    }
  }

  /**
   Every step, interrupted or not, keeps tags and claims in agreement, and lets a unit into the
   inventory only when the database books it as handed out.
   */
  lemma AdvanceKeeps(w: Counter, p: Player, x: Event, item: Item, sha: string -> int)
    requires Kept(w, p, sha) && EventOk(x)
    ensures Kept(Advance(w, p, x, sha), p, sha)
    ensures Unexplained(Advance(w, p, x, sha), p, item) == Unexplained(w, p, item)
  {
    hide Sum; hide Total; hide Good; hide Priced; hide Step; hide SlotsOk; hide UnitsOk; hide Take;
    match x
    case Prepare(d, quantity) => PrepareKeeps(w, p, d, quantity, item, sha);
    case Hand(i, units) => HandKeeps(w, p, i, units, item, sha);
    case Resume(c) => if w.at.Idle? { ResumeKeeps(w, p, c, sha); }
    case Go =>
      if w.at.Completing? { CompleteKeeps(w, p, item, sha); }
      else if w.at.Cleaning? { CleanKeeps(w, p, item, sha); }
      else if (w.at.Untagging? || w.at.Discarding?) && w.at.slot < |w.inv| { SlotStepKeeps(w, p, item, sha); }
      else { OtherTakesKeep(w, p, item, sha); }
    case Crash =>
    case Shuffle(slots) =>
      if w.at.Idle? && multiset(slots) == multiset(w.inv) { ShuffleKeeps(w, p, slots, item); }
    case Serve(call) => if Others(w.tables, p, call.action) { ServeKeeps(w, p, call, item, sha); }
  }

  // ----- runs -----

  lemma AdvanceStays(w: Counter, p: Player, x: Event, sha: string -> int)
    requires Kept(w, p, sha) && EventOk(x)
    ensures Priced(w.tables) && (w.at.Untagging? || w.at.Discarding? ==> w.at.slot <= |w.inv|)
    ensures Kept(Advance(w, p, x, sha), p, sha)
  {
    hide Sum; hide Good; hide Priced; hide UnitsOk; hide SlotsOk; hide Advance;
    AdvanceKeeps(w, p, x, Item("", 0, ""), sha);
  }

  predicate EventsOk(events: seq<Event>)
  {
    forall i :: 0 <= i < |events| ==> EventOk(events[i])
  }

  /** The counter after a run of events. */
  ghost function Play(w: Counter, p: Player, events: seq<Event>, sha: string -> int): (v: Counter)
    requires Kept(w, p, sha) && EventsOk(events)
    ensures Kept(v, p, sha)
    decreases |events|
  {
    if events == [] then w
    else
      var before := Play(w, p, events[..|events| - 1], sha);
      AdvanceStays(before, p, events[|events| - 1], sha);
      Advance(before, p, events[|events| - 1], sha)
  }

  /** Over any run, with crashes anywhere, the inventory gains exactly the units booked as handed out. */
  lemma {:induction false} DeliveriesArriveOnce(w: Counter, p: Player, events: seq<Event>, item: Item,
                                                sha: string -> int)
    requires Kept(w, p, sha) && EventsOk(events)
    ensures Unexplained(Play(w, p, events, sha), p, item) == Unexplained(w, p, item)
    decreases |events|
  {
    hide Kept; hide EventOk; hide Advance; hide Unexplained;
    if events != [] {
      var front := events[..|events| - 1];
      DeliveriesArriveOnce(w, p, front, item, sha);
      AdvanceKeeps(Play(w, p, front, sha), p, events[|events| - 1], item, sha);
    }
  }

  // ----- recovery -----

  function Rank(at: Stage): nat
  {
    match at
    case Handing(_, _) => 5
    case Completing(_, _) => 4
    case Untagging(_, _) => 3
    case Cleaning(_) => 2
    case Discarding(_, _) => 1
    case Idle => 0
  }

  function Left(w: Counter): int { if w.at.Untagging? || w.at.Discarding? then |w.inv| - w.at.slot else 0 }

  lemma KeptStage(w: Counter, p: Player, sha: string -> int)
    requires Kept(w, p, sha)
    ensures Priced(w.tables) && StageOk(w, p) && SlotsOk(w.tables, p, w.inv) && Good(w.tables, sha)
    ensures 0 <= Left(w) && (w.at.Untagging? || w.at.Discarding? ==> w.at.slot <= |w.inv|)
  {
    hide Sum; hide Good; hide Priced; hide UnitsOk;
  }

  lemma TakeGetsCloser(w: Counter, p: Player, sha: string -> int)
    requires Kept(w, p, sha) && !w.at.Idle?
    ensures Kept(Take(w), p, sha) && 0 <= Left(w) && 0 <= Left(Take(w))
    ensures Rank(Take(w).at) < Rank(w.at) || (Rank(Take(w).at) == Rank(w.at) && Left(Take(w)) < Left(w))
  {
    hide Kept; hide Sum; hide CompleteClaim; hide CleanClaim; hide Good; hide Priced; hide SlotsOk; hide Row;
    hide After;
    KeptStage(w, p, sha);
    AdvanceKeeps(w, p, Go, Item("", 0, ""), sha);
    KeptStage(Take(w), p, sha);
  }

  /** All steps up to the point where nothing is left to do. */
  ghost function Drive(w: Counter, p: Player, sha: string -> int): (v: Counter)
    requires Kept(w, p, sha)
    ensures Kept(v, p, sha) && v.at.Idle?
    decreases Rank(w.at), Left(w)
  {
    if w.at.Idle? then w
    else
      TakeGetsCloser(w, p, sha);
      Drive(Take(w), p, sha)
  }

  /** Closed: nothing was handed out, or what was is booked, and no tag is left. */
  predicate Closed(v: Counter, c: Id)
  {
    && c < |v.tables.claims| && NoTags(v.inv, c, |v.inv|)
    && (v.tables.claims[c].status.ClaimCanceled?
        || (v.tables.claims[c].status.ClaimApplied? && v.tables.claims[c].cleaned))
  }

  lemma NextOrClosed(w: Counter, p: Player, sha: string -> int)
    requires Kept(w, p, sha) && !w.at.Idle?
    ensures Kept(Take(w), p, sha)
    ensures if Take(w).at.Idle? then Closed(Take(w), w.at.c) else Take(w).at.c == w.at.c
  {
    hide Kept; hide Sum; hide Good; hide Priced; hide CompleteClaim; hide CleanClaim;
    KeptStage(w, p, sha);
    TakeGetsCloser(w, p, sha);
    KeptStage(Take(w), p, sha);
    var c := w.at.c;
    NoUnitsTagged(w.tables, p, w.inv, c);
    NoUnitsTagged(Take(w).tables, p, Take(w).inv, c);
    if w.at.Completing? {
      ClaimOpsChangeOneRow(w.tables, c, w.at.delivered);
      CompletionSucceeds(w, p, sha);
    } else if w.at.Cleaning? {
      ClaimOpsChangeOneRow(w.tables, c, 0);
    } else if w.at.Discarding? && w.at.slot == |w.inv| {
      CanceledHasNoTags(w.tables, p, w.inv, c);
    }
  }

  lemma CanceledHasNoTags(t: Tables, p: Player, inv: seq<Slot>, c: Id)
    requires SlotsOk(t, p, inv) && c < |t.claims| && t.claims[c].status.ClaimCanceled?
    ensures NoTags(inv, c, |inv|)
  {
    forall i | 0 <= i < |inv|
      ensures !IsClaimed(inv[i], c)
    {
      assert SlotOk(t, p, inv[i]);
    }
  }

  lemma CompletionSucceeds(w: Counter, p: Player, sha: string -> int)
    requires Kept(w, p, sha) && w.at.Completing?
    ensures CompleteClaim(w.tables, w.at.c, w.at.delivered).Ok?
  {
    hide Sum; hide Total; hide Priced; hide Good; hide SlotsOk;
    var c := w.at.c;
    assert Sum(w.inv, ClaimedUnits(c)) <= w.tables.claims[c].quantity;
    NoUnitsTagged(w.tables, p, w.inv, c);
    GoodClaims(w.tables, sha);
    PreparedClaimIsCovered(w.tables.claims, w.tables.floor.deliveries, c);
  }

  lemma {:induction false} DriveCloses(w: Counter, p: Player, sha: string -> int)
    requires Kept(w, p, sha) && !w.at.Idle?
    ensures Closed(Drive(w, p, sha), w.at.c)
    decreases Rank(w.at), Left(w)
  {
    hide Kept; hide Take; hide Closed;
    NextOrClosed(w, p, sha);
    TakeGetsCloser(w, p, sha);
    if !Take(w).at.Idle? { DriveCloses(Take(w), p, sha); }
  }

  /** Recovering any claim of the player, from wherever it was interrupted, closes it. */
  lemma ClaimRecoveryCloses(w: Counter, p: Player, c: Id, sha: string -> int)
    requires Kept(w, p, sha) && w.at.Idle? && c < |w.tables.claims| && w.tables.claims[c].owner == p
    ensures Kept(w.(at := Begin(w, p, c)), p, sha)
    ensures Closed(Drive(w.(at := Begin(w, p, c)), p, sha), c)
  {
    hide Kept; hide Drive; hide Closed; hide Good; hide SlotsOk; hide Priced;
    ResumeKeeps(w, p, c, sha);
    KeptStage(w, p, sha);
    GoodClaimRow(w.tables, c, sha);
    DriveCloses(w.(at := Begin(w, p, c)), p, sha);
  }
}
