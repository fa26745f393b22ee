/** What sells do to the player's own stacks: only one that is persisted as TAGGED ever takes any. */
module EscrowStacks {
  import opened Sums
  import opened Domain
  import opened Matching
  import opened Settlement
  import opened Placement
  import opened Exchange
  import opened Invariants
  import opened StepsMoney
  import opened StepsTrade
  import opened Runs
  import opened Inventory
  import opened SellEscrow
  import opened EscrowRecovery

  /** A slot as the player owns it: without the mark of a PREPARED escrow, empty once the stack is sold. */
  function Owned(t: Tables): Slot -> Slot
  {
    (s: Slot) =>
      if s.None? then None
      else match s.value.mark
           case Selling(e) =>
             if e < |t.escrows| && t.escrows[e].status.EscrowPrepared? then Some(s.value.(mark := Plain)) else None
           case Receipt(_) => None
           case _ => s
  }

  /** The stacks the player owns, slot by slot. */
  function Goods(w: Shop): seq<Slot> { Each(w.inv, Owned(w.tables)) }

  /** This player's sell has become final: TAGGED or ORDERED. */
  predicate Final(t: Tables, p: Player, e: Id)
  {
    e < |t.escrows| && t.escrows[e].owner == p
      && (t.escrows[e].status.EscrowTagged? || t.escrows[e].status.EscrowOrdered?)
  }

  // ----- one step -----

  ghost predicate Persists(w: Shop, x: Event)
    requires Priced(w.tables) && (!w.pc.Idle? ==> Row(w.tables, w.pc.e))
  {
    x.Go? && w.pc.Persisting? && Take(w).tables != w.tables
  }

  lemma WriteKeepsGoods(w: Shop, p: Player, sha: string -> int)
    requires Kept(w, p, sha) && Write(w).Some?
    ensures Goods(Take(w)) == Goods(w)
  {
    hide Sum; hide Total; hide Good; hide Priced; hide StacksOk;
    var (i, s) := Write(w).value;
    assert SlotOk(w.tables, p, w.inv[i]);
    assert Owned(w.tables)(s) == Owned(w.tables)(w.inv[i]);
  }

  lemma TransactionKeepsGoods(w: Shop, p: Player, sha: string -> int)
    requires Kept(w, p, sha) && Write(w).None? && !Persists(w, Go)
    ensures Goods(Take(w)) == Goods(w)
  {
    hide Sum; hide Total; hide Good; hide Priced; hide StacksOk; hide ExecuteEscrow;
    var u := Take(w).tables;
    if !w.pc.Idle? && u != w.tables {
      var e := w.pc.e;
      EscrowOpsMoveOneRow(w.tables, e, 0, 0);
      forall i | 0 <= i < |w.inv|
        ensures Owned(u)(w.inv[i]) == Owned(w.tables)(w.inv[i])
      {
        assert SlotOk(w.tables, p, w.inv[i]);
      }
    }
  }

  /** Steps that leave the rows behind the marks alone. */
  lemma SameRowsSameGoods(w: Shop, u: Tables, p: Player)
    requires SlotsOk(w.tables, p, w.inv) && |w.tables.escrows| <= |u.escrows|
    requires forall e: nat :: e < |w.tables.escrows| && w.tables.escrows[e].owner == p ==>
               u.escrows[e] == w.tables.escrows[e]
    ensures Goods(w.(tables := u)) == Goods(w)
  {
    forall i | 0 <= i < |w.inv|
      ensures Owned(u)(w.inv[i]) == Owned(w.tables)(w.inv[i])
    {
      assert SlotOk(w.tables, p, w.inv[i]);
    }
  }

  /** Whatever is not the persisting of a sell keeps every stack in its slot; moving stacks permutes them. */
  lemma StepKeepsGoods(w: Shop, p: Player, x: Event, sha: string -> int)
    requires Kept(w, p, sha) && EventOk(p, x) && !Persists(w, x)
    ensures multiset(Goods(Advance(w, p, x, sha))) == multiset(Goods(w))
    ensures !x.Shuffle? ==> Goods(Advance(w, p, x, sha)) == Goods(w)
  {
    hide Sum; hide Total; hide Good; hide Priced; hide Step; hide StacksOk; hide SlotsOk; hide Plan; hide Take;
    hide Goods;
    match x {
      case Submit(cfg, req, plan) =>
        PrepareAddsOneRow(w.tables, cfg, sha, req);
        SameRowsSameGoods(w, Step(w.tables, cfg, sha, DoPrepareEscrow(req)), p);
        SameInvSameGoods(w.(tables := Advance(w, p, x, sha).tables), Advance(w, p, x, sha));
      case Resume(_) => SameInvSameGoods(w, Advance(w, p, x, sha));
      case Go => if Write(w).Some? { WriteKeepsGoods(w, p, sha); } else { TransactionKeepsGoods(w, p, sha); }
      case Crash => SameInvSameGoods(w, Advance(w, p, x, sha));
      case Shuffle(slots) => if multiset(slots) == multiset(w.inv) { ShuffleKeepsGoods(w, slots); }
      case Serve(call) =>
        if Others(w.tables, p, call.action) {
          OthersKeepMine(w.tables, call.cfg, sha, call.action, p);
          SameRowsSameGoods(w, Step(w.tables, call.cfg, sha, call.action), p);
        }
    }
  }

  lemma SameInvSameGoods(w: Shop, v: Shop)
    requires v.inv == w.inv && v.tables == w.tables
    ensures Goods(v) == Goods(w)
  {
  }

  function Hits(f: Slot -> Slot, y: Slot): Slot -> int { (s: Slot) => if f(s) == y then 1 else 0 }

  lemma EachFront(s: seq<Slot>, f: Slot -> Slot)
    requires s != []
    ensures Each(s, f) == Each(s[..|s| - 1], f) + [f(s[|s| - 1])]
  {
  }

  lemma {:induction false} CountEach(s: seq<Slot>, f: Slot -> Slot, y: Slot)
    ensures multiset(Each(s, f))[y] == Sum(s, Hits(f, y))
  {
    if s != [] {
      CountEach(s[..|s| - 1], f, y);
      EachFront(s, f);
    }
  }

  lemma EachPermuted(a: seq<Slot>, b: seq<Slot>, f: Slot -> Slot)
    requires multiset(a) == multiset(b)
    ensures multiset(Each(a, f)) == multiset(Each(b, f))
  {
    hide Sum; hide Each;
    forall y: Slot
      ensures multiset(Each(a, f))[y] == multiset(Each(b, f))[y]
    {
      CountEach(a, f, y);
      CountEach(b, f, y);
      SumPermuted(a, b, Hits(f, y));
    }
  }

  lemma ShuffleKeepsGoods(w: Shop, slots: seq<Slot>)
    requires multiset(slots) == multiset(w.inv)
    ensures multiset(Goods(w.(inv := slots))) == multiset(Goods(w))
  {
    EachPermuted(slots, w.inv, Owned(w.tables));
  }

  /** Persisting a sell takes the stacks marked for it, whole, and no other. */
  lemma PersistTakesMarked(w: Shop, p: Player, sha: string -> int)
    requires Kept(w, p, sha) && w.pc.Persisting?
    ensures |Take(w).inv| == |w.inv|
    ensures forall i :: 0 <= i < |w.inv| ==>
              Goods(Take(w))[i] == if Persists(w, Go) && IsSelling(w.inv[i], w.pc.e) then None else Goods(w)[i]
  {
    hide Sum; hide Total; hide Good; hide Priced; hide StacksOk;
    EscrowOpsMoveOneRow(w.tables, w.pc.e, MarkedUnits(w, w.pc.e), Sum(w.inv, SellingStacks(w.pc.e)));
    forall i | 0 <= i < |w.inv|
      ensures Goods(Take(w))[i] == if Persists(w, Go) && IsSelling(w.inv[i], w.pc.e) then None else Goods(w)[i]
    {
      assert SlotOk(w.tables, p, w.inv[i]);
    }
  }

  lemma {:induction false} FewerStacks(inv: seq<Slot>, f: Slot -> Slot, g: Slot -> Slot, stack: Stack)
    requires forall i :: 0 <= i < |inv| ==> g(inv[i]) == f(inv[i]) || g(inv[i]).None?
    ensures multiset(Each(inv, g))[Some(stack)] <= multiset(Each(inv, f))[Some(stack)]
  {
    hide Each;
    if inv == [] {
      assert Each(inv, g) == Each(inv, f);
    } else {
      var last := |inv| - 1;
      EachFront(inv, f);
      EachFront(inv, g);
      assert g(inv[last]) == f(inv[last]) || g(inv[last]).None?;
      assert forall i :: 0 <= i < last ==> inv[..last][i] == inv[i];
      FewerStacks(inv[..last], f, g, stack);
    }
  }

  lemma PersistMakesNoStack(w: Shop, p: Player, stack: Stack, sha: string -> int)
    requires Kept(w, p, sha) && w.pc.Persisting?
    ensures multiset(Goods(Take(w)))[Some(stack)] <= multiset(Goods(w))[Some(stack)]
  {
    hide Sum; hide Kept; hide Priced; hide Owned; hide MarkTagged; hide IsSelling;
    KeptRow(w, p, sha);
    PersistTakesMarked(w, p, sha);
    var v := Take(w);
    assert v.inv == w.inv;
    forall i | 0 <= i < |w.inv|
      ensures Owned(v.tables)(w.inv[i]) == Owned(w.tables)(w.inv[i]) || Owned(v.tables)(w.inv[i]).None?
    {
      assert Goods(v)[i] == Owned(v.tables)(w.inv[i]) && Goods(w)[i] == Owned(w.tables)(w.inv[i]);
    }
    FewerStacks(w.inv, Owned(w.tables), Owned(v.tables), stack);
  }

  lemma StepMakesNoStack(w: Shop, p: Player, x: Event, stack: Stack, sha: string -> int)
    requires Kept(w, p, sha) && EventOk(p, x)
    ensures multiset(Goods(Advance(w, p, x, sha)))[Some(stack)] <= multiset(Goods(w))[Some(stack)]
  {
    hide Sum; hide Kept; hide Take; hide Goods; hide Owned; hide EventOk; hide Priced; hide Step;
    KeptRow(w, p, sha);
    if Persists(w, x) { PersistMakesNoStack(w, p, stack, sha); } else { StepKeepsGoods(w, p, x, sha); }
  }

  /** A final sell stays final, so one that is not at the end of a step was not before it. */
  lemma FinalStays(w: Shop, p: Player, x: Event, e: Id, sha: string -> int)
    requires Kept(w, p, sha) && EventOk(p, x) && Final(w.tables, p, e)
    ensures Final(Advance(w, p, x, sha).tables, p, e)
  {
    hide Sum; hide Total; hide Good; hide Priced; hide Step; hide StacksOk; hide Plan; hide SlotsOk; hide ExecuteEscrow;
    var t := w.tables;
    match x {
      case Submit(cfg, req, plan) => PrepareAddsOneRow(t, cfg, sha, req);
      case Serve(call) => if Others(t, p, call.action) { OthersKeepMine(t, call.cfg, sha, call.action, p); }
      case Go =>
        if !w.pc.Idle? { EscrowOpsMoveOneRow(t, w.pc.e, MarkedUnits(w, w.pc.e), Sum(w.inv, SellingStacks(w.pc.e))); }
      case _ =>
    }
  }

  lemma PersistedIsNewlyFinal(w: Shop, p: Player, x: Event, sha: string -> int)
    requires Kept(w, p, sha) && EventOk(p, x) && Persists(w, x)
    ensures w.pc.Persisting? && !Final(w.tables, p, w.pc.e) && Final(Advance(w, p, x, sha).tables, p, w.pc.e)
  {
    hide Sum; hide Total; hide Good; hide Priced; hide StacksOk; hide SlotsOk;
    EscrowOpsMoveOneRow(w.tables, w.pc.e, MarkedUnits(w, w.pc.e), Sum(w.inv, SellingStacks(w.pc.e)));
  }

  // ----- runs -----

  lemma {:induction false} FinalStaysOverRuns(w: Shop, p: Player, events: seq<Event>, e: Id, sha: string -> int)
    requires Kept(w, p, sha) && EventsOk(p, events) && Final(w.tables, p, e)
    ensures Final(Play(w, p, events, sha).tables, p, e)
    decreases |events|
  {
    hide Kept; hide EventOk; hide Advance; hide Final;
    if events != [] {
      var front := events[..|events| - 1];
      FinalStaysOverRuns(w, p, front, e, sha);
      FinalStays(Play(w, p, front, sha), p, events[|events| - 1], e, sha);
    }
  }

  /** No sell of this player became final between the two. */
  ghost predicate NoneSold(t: Tables, u: Tables, p: Player)
  {
    forall e: nat :: Final(u, p, e) ==> Final(t, p, e)
  }

  /**
   A run in which no sell becomes final keeps every stack the player owns, each in its slot unless
   stacks are moved, wherever the run was interrupted and whatever was sold before it.
   */
  lemma {:induction false} UnsoldRunsKeepStacks(w: Shop, p: Player, events: seq<Event>, sha: string -> int)
    requires Kept(w, p, sha) && EventsOk(p, events) && NoneSold(w.tables, Play(w, p, events, sha).tables, p)
    ensures multiset(Goods(Play(w, p, events, sha))) == multiset(Goods(w))
    ensures (forall i :: 0 <= i < |events| ==> !events[i].Shuffle?) ==> Goods(Play(w, p, events, sha)) == Goods(w)
    decreases |events|
  {
    hide Kept; hide EventOk; hide Advance; hide Goods; hide Final; hide Persists;
    if events != [] {
      var front, x := events[..|events| - 1], events[|events| - 1];
      var v := Play(w, p, front, sha);
      KeptRow(v, p, sha);
      forall e: nat | Final(v.tables, p, e)
        ensures Final(w.tables, p, e)
      {
        FinalStays(v, p, x, e, sha);
      }
      if Persists(v, x) {
        PersistedIsNewlyFinal(v, p, x, sha);
        FinalStaysOverRuns(w, p, front, v.pc.e, sha);
        assert false;
      }
      UnsoldRunsKeepStacks(w, p, front, sha);
      StepKeepsGoods(v, p, x, sha);
    }
  }

  /** No run, whatever it sells, makes a stack or changes one: each occurs at most as often as before. */
  lemma {:induction false} RunsMakeNoStack(w: Shop, p: Player, events: seq<Event>, stack: Stack, sha: string -> int)
    requires Kept(w, p, sha) && EventsOk(p, events)
    ensures multiset(Goods(Play(w, p, events, sha)))[Some(stack)] <= multiset(Goods(w))[Some(stack)]
    decreases |events|
  {
    hide Kept; hide EventOk; hide Advance; hide Goods;
    if events != [] {
      var front := events[..|events| - 1];
      RunsMakeNoStack(w, p, front, stack, sha);
      StepMakesNoStack(Play(w, p, front, sha), p, events[|events| - 1], stack, sha);
    }
  }

  predicate Unmarked(inv: seq<Slot>)
  {
    forall i :: 0 <= i < |inv| && inv[i].Some? ==> !inv[i].value.mark.Selling? && !inv[i].value.mark.Receipt?
  }

  lemma UnmarkedIsOwned(w: Shop)
    requires Unmarked(w.inv)
    ensures Goods(w) == w.inv
  {
  }

  /** Escrows that are CANCELED, or ordered and cleaned, leave no marker behind. */
  lemma SettledIsUnmarked(w: Shop, p: Player, sha: string -> int)
    requires Kept(w, p, sha)
    requires forall e: nat :: e < |w.tables.escrows| && w.tables.escrows[e].owner == p ==>
               w.tables.escrows[e].status.EscrowCanceled?
               || (w.tables.escrows[e].status.EscrowOrdered? && w.tables.escrows[e].cleaned)
    ensures Unmarked(w.inv)
  {
    hide Kept;
    KeptRow(w, p, sha);
    hide Good; hide Priced; hide StacksOk;
    forall i | 0 <= i < |w.inv| && w.inv[i].Some?
      ensures !w.inv[i].value.mark.Selling? && !w.inv[i].value.mark.Receipt?
    {
      assert SlotOk(w.tables, p, w.inv[i]);
    }
  }

  /**
   When every escrow of the player ends CANCELED, but for those it had sold before, the inventory is
   the one the run began with.
   */
  lemma CanceledRunsChangeNothing(w: Shop, p: Player, events: seq<Event>, sha: string -> int)
    requires Kept(w, p, sha) && EventsOk(p, events) && Unmarked(w.inv)
    requires var u := Play(w, p, events, sha).tables;
             forall e: nat :: e < |u.escrows| && u.escrows[e].owner == p ==>
               u.escrows[e].status.EscrowCanceled?
               || (Final(w.tables, p, e) && u.escrows[e].status.EscrowOrdered? && u.escrows[e].cleaned)
    ensures multiset(Play(w, p, events, sha).inv) == multiset(w.inv)
    ensures (forall i :: 0 <= i < |events| ==> !events[i].Shuffle?) ==> Play(w, p, events, sha).inv == w.inv
  {
    hide Kept; hide Play; hide Goods; hide Unmarked;
    var v := Play(w, p, events, sha);
    UnsoldRunsKeepStacks(w, p, events, sha);
    SettledIsUnmarked(v, p, sha);
    UnmarkedIsOwned(v);
    UnmarkedIsOwned(w);
  }
}
