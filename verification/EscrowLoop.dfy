/** `reconcileSellEscrows` as a whole: a sell the exchange refuses stops the escrows behind it. */
module EscrowLoop {
  import opened Sums
  import opened Domain
  import opened Settlement
  import opened Exchange
  import opened Invariants
  import opened StepsTrade
  import opened Solvency
  import opened Inventory
  import opened SellEscrow
  import opened EscrowRecovery

  predicate Mine(t: Tables, p: Player, e: Id) { e < |t.escrows| && t.escrows[e].owner == p }

  /** Nothing is left to do for an escrow. */
  predicate Done(row: Escrow) { row.status.EscrowCanceled? || (row.status.EscrowOrdered? && row.cleaned) }

  predicate Unfinished(row: Escrow) { !row.status.EscrowCanceled? && !row.cleaned }

  /** `unfinishedSellEscrows`: the player's unfinished escrows in the order they were made. */
  function UnfinishedOf(t: Tables, p: Player, n: nat): (ids: seq<Id>)
    requires n <= |t.escrows|
    ensures forall k :: 0 <= k < |ids| ==> ids[k] < n && Mine(t, p, ids[k]) && Unfinished(t.escrows[ids[k]])
    ensures forall e: nat :: e < n && Mine(t, p, e) && Unfinished(t.escrows[e]) ==> e in ids
    ensures forall j, k :: 0 <= j < k < |ids| ==> ids[j] < ids[k]
  {
    if n == 0 then [] else
      var front := UnfinishedOf(t, p, n - 1);
      if Mine(t, p, n - 1) && Unfinished(t.escrows[n - 1]) then front + [n - 1] else front
  }

  predicate AllMine(t: Tables, p: Player, ids: seq<Id>) { forall k :: 0 <= k < |ids| ==> Mine(t, p, ids[k]) }

  lemma MineStays(w: Shop, v: Shop, p: Player, ids: seq<Id>)
    requires ids != [] && AllMine(w.tables, p, ids) && Row(w.tables, ids[0]) && Settled(w, v, ids[0])
    ensures AllMine(v.tables, p, ids)
  {
  }

  /** Where the loop stands after its first escrow. */
  ghost function Next(w: Shop, p: Player, ids: seq<Id>, sha: string -> int): (v: Shop)
    requires Kept(w, p, sha) && w.pc.Idle? && ids != [] && AllMine(w.tables, p, ids)
    ensures Kept(v, p, sha) && v.pc.Idle? && AllMine(v.tables, p, ids) && Row(w.tables, ids[0]) && Settled(w, v, ids[0])
  {
    assert Mine(w.tables, p, ids[0]);
    ReconciliationFinishes(w, p, ids[0], sha);
    var v := Drive(w.(pc := Begin(w, p, ids[0])), p, sha);
    MineStays(w, v, p, ids);
    v
  }

  /** The loop: a sell that stays TAGGED was refused, and the exception ends it. */
  ghost function Loop(w: Shop, p: Player, ids: seq<Id>, sha: string -> int): (v: Shop)
    requires Kept(w, p, sha) && w.pc.Idle? && AllMine(w.tables, p, ids)
    ensures Kept(v, p, sha) && v.pc.Idle?
    decreases |ids|
  {
    hide Kept;
    hide Settled;
    if ids == [] then w
    else
      var v := Next(w, p, ids, sha);
      if v.tables.escrows[ids[0]].status.EscrowTagged? then v else Loop(v, p, ids[1..], sha)
  }

  // ----- what one escrow's reconciliation leaves of the others -----

  lemma {:induction false} SumSameRows<T>(s: seq<T>, r: seq<T>, f: T -> int)
    requires |s| == |r| && forall i :: 0 <= i < |s| ==> f(s[i]) == f(r[i])
    ensures Sum(s, f) == Sum(r, f)
  {
    if s != [] {
      assert forall i :: 0 <= i < |s| - 1 ==> s[..|s| - 1][i] == s[i] && r[..|s| - 1][i] == r[i];
      SumSameRows(s[..|s| - 1], r[..|s| - 1], f);
    }
  }

  lemma OtherMarksStay(inv: seq<Slot>, e: Id, item: Item, d: Id)
    requires d != e
    ensures Sum(Restored(inv, e, item), SellingUnits(d)) == Sum(inv, SellingUnits(d))
    ensures Sum(WithReceipts(inv, e, ""), SellingUnits(d)) == Sum(inv, SellingUnits(d))
    ensures Sum(Emptied(inv, e), SellingUnits(d)) == Sum(inv, SellingUnits(d))
  {
    hide Sum;
    SumSameRows(Restored(inv, e, item), inv, SellingUnits(d));
    SumSameRows(WithReceipts(inv, e, ""), inv, SellingUnits(d));
    SumSameRows(Emptied(inv, e), inv, SellingUnits(d));
  }

  /** A sell that is to go through and that the exchange does not take. */
  predicate Stuck(w: Shop, e: Id)
  {
    Row(w.tables, e) && Wanted(w, e) && !Accepts(w.tables, w.tables.escrows[e])
  }

  /** What the loop makes of an escrow it gets to. */
  ghost predicate Ended(w: Shop, e: Id, now: Escrow)
  {
    if Stuck(w, e) then now.status.EscrowTagged?
    else
      && Done(now)
      && (now.status.EscrowOrdered? <==>
            Row(w.tables, e) && (Wanted(w, e) || w.tables.escrows[e].status.EscrowOrdered?))
  }

  lemma FirstEnds(w: Shop, v: Shop, e: Id)
    requires Row(w.tables, e) && Settled(w, v, e)
    ensures e < |v.tables.escrows| && Ended(w, e, v.tables.escrows[e])
    ensures v.tables.escrows[e].status.EscrowTagged? <==> Stuck(w, e)
  {
    hide Sum; hide Money; hide Restored; hide WithReceipts; hide Emptied; hide Accepts;
  }

  predicate Increasing(ids: seq<Id>) { forall j, k :: 0 <= j < k < |ids| ==> ids[j] < ids[k] }

  lemma {:induction false} LoopLeaves(w: Shop, p: Player, ids: seq<Id>, d: Id, sha: string -> int)
    requires Kept(w, p, sha) && w.pc.Idle? && AllMine(w.tables, p, ids) && d < |w.tables.escrows| && d !in ids
    ensures d < |Loop(w, p, ids, sha).tables.escrows|
    ensures Loop(w, p, ids, sha).tables.escrows[d] == w.tables.escrows[d]
    decreases |ids|
  {
    hide Kept; hide Drive; hide Begin; hide Mine; hide Accepts; hide Money;
    if ids != [] {
      var v := Next(w, p, ids, sha);
      if !v.tables.escrows[ids[0]].status.EscrowTagged? { LoopLeaves(v, p, ids[1..], d, sha); }
    }
  }

  // ----- the whole loop -----

  /** The shop when the loop comes to escrow `j` of the list. */
  ghost function At(w: Shop, p: Player, ids: seq<Id>, j: nat, sha: string -> int): (v: Shop)
    requires Kept(w, p, sha) && w.pc.Idle? && AllMine(w.tables, p, ids) && j <= |ids|
    ensures Kept(v, p, sha) && v.pc.Idle?
    decreases j
  {
    hide Kept; hide Settled;
    if j == 0 then w else At(Next(w, p, ids, sha), p, ids[1..], j - 1, sha)
  }

  /** The loop does come to escrow `j`: none before it is stuck when its turn comes. */
  ghost predicate Reaches(w: Shop, p: Player, ids: seq<Id>, j: nat, sha: string -> int)
    requires Kept(w, p, sha) && w.pc.Idle? && AllMine(w.tables, p, ids) && j <= |ids|
    decreases j
  {
    hide Kept; hide Settled;
    j == 0 || (!Stuck(w, ids[0]) && Reaches(Next(w, p, ids, sha), p, ids[1..], j - 1, sha))
  }

  /**
   The loop ends each escrow it comes to as that one's own reconciliation would, from the shop as
   it is then; it leaves the escrows behind the first stuck one alone.
   */
  lemma {:induction false} LoopEnds(w: Shop, p: Player, ids: seq<Id>, j: nat, sha: string -> int)
    requires Kept(w, p, sha) && w.pc.Idle? && AllMine(w.tables, p, ids) && Increasing(ids) && j < |ids|
    ensures var v, d := Loop(w, p, ids, sha), ids[j];
            && d < |v.tables.escrows|
            && if Reaches(w, p, ids, j, sha) then Ended(At(w, p, ids, j, sha), d, v.tables.escrows[d])
               else d < |w.tables.escrows| && v.tables.escrows[d] == w.tables.escrows[d]
    decreases |ids|
  {
    hide Kept; hide Drive; hide Begin; hide Money; hide Settled; hide Stuck; hide Wanted; hide Mine; hide Row;
    hide Ended;
    var e, d, v, rest := ids[0], ids[j], Next(w, p, ids, sha), ids[1..];
    assert Mine(w.tables, p, d);
    FirstEnds(w, v, e);
    if j == 0 {
      if !v.tables.escrows[e].status.EscrowTagged? { LoopLeaves(v, p, rest, e, sha); }
    } else {
      RowStays(w, v, p, e, d);
      if !v.tables.escrows[e].status.EscrowTagged? {
        LoopEnds(v, p, rest, j - 1, sha);
        assert rest[j - 1] == d;
      }
    }
  }

  lemma RowStays(w: Shop, v: Shop, p: Player, e: Id, d: Id)
    requires Row(w.tables, e) && Settled(w, v, e) && d != e && Mine(w.tables, p, d)
    ensures d < |v.tables.escrows| && d < |w.tables.escrows| && v.tables.escrows[d] == w.tables.escrows[d]
  {
    hide Sum; hide Money; hide Restored; hide WithReceipts; hide Emptied; hide Accepts;
  }

  lemma MineIsRow(w: Shop, p: Player, e: Id, sha: string -> int)
    requires Kept(w, p, sha) && Mine(w.tables, p, e)
    ensures Row(w.tables, e) && e < |w.tables.escrows|
  {
    hide Kept; hide Good;
    KeptRow(w, p, sha);
    RowsExist(w.tables, sha);
  }

  lemma FinishedIsDone(w: Shop, p: Player, e: Id, sha: string -> int)
    requires Kept(w, p, sha) && Row(w.tables, e) && !Unfinished(w.tables.escrows[e])
    ensures Done(w.tables.escrows[e]) && !Wanted(w, e)
  {
    hide Kept; hide Sum; hide Good;
    KeptRow(w, p, sha);
    EscrowTerms(w.tables, e, sha);
  }

  lemma EndedIsDone(w: Shop, e: Id, now: Escrow)
    requires Ended(w, e, now)
    ensures Stuck(w, e) <==> !Done(now)
  {
    hide Stuck;
  }

  /** The loop comes past an escrow when it comes to it and it is not stuck. */
  lemma {:induction false} ReachesNext(w: Shop, p: Player, ids: seq<Id>, j: nat, sha: string -> int)
    requires Kept(w, p, sha) && w.pc.Idle? && AllMine(w.tables, p, ids) && j < |ids|
    ensures Reaches(w, p, ids, j + 1, sha) <==> Reaches(w, p, ids, j, sha) && !Stuck(At(w, p, ids, j, sha), ids[j])
    decreases j
  {
    hide Kept; hide Settled; hide Stuck;
    if j > 0 { ReachesNext(Next(w, p, ids, sha), p, ids[1..], j - 1, sha); }
  }

  /** It comes to the end when no escrow it comes to is stuck. */
  lemma {:induction false} ReachesUpTo(w: Shop, p: Player, ids: seq<Id>, n: nat, sha: string -> int)
    requires Kept(w, p, sha) && w.pc.Idle? && AllMine(w.tables, p, ids) && n <= |ids|
    ensures Reaches(w, p, ids, n, sha)
       <==> forall j: nat :: j < n ==> Reaches(w, p, ids, j, sha) && !Stuck(At(w, p, ids, j, sha), ids[j])
    decreases n
  {
    hide Kept; hide Settled; hide Stuck; hide Reaches; hide At;
    if n == 0 {
      ReachesFirst(w, p, ids, sha);
    } else {
      ReachesUpTo(w, p, ids, n - 1, sha);
      ReachesNext(w, p, ids, n - 1, sha);
    }
  }

  lemma ReachesFirst(w: Shop, p: Player, ids: seq<Id>, sha: string -> int)
    requires Kept(w, p, sha) && w.pc.Idle? && AllMine(w.tables, p, ids)
    ensures Reaches(w, p, ids, 0, sha)
  {
    hide Kept;
  }

  /** One escrow in the list is done at the end when the loop came to it and it was not stuck. */
  lemma DoneIfReached(w: Shop, p: Player, ids: seq<Id>, j: nat, sha: string -> int)
    requires Kept(w, p, sha) && w.pc.Idle? && AllMine(w.tables, p, ids) && Increasing(ids) && j < |ids|
    requires Mine(w.tables, p, ids[j]) && !Done(w.tables.escrows[ids[j]])
    ensures ids[j] < |Loop(w, p, ids, sha).tables.escrows|
    ensures Done(Loop(w, p, ids, sha).tables.escrows[ids[j]])
       <==> Reaches(w, p, ids, j, sha) && !Stuck(At(w, p, ids, j, sha), ids[j])
  {
    hide Kept; hide Loop; hide Stuck; hide Ended; hide Reaches; hide At; hide Done;
    LoopEnds(w, p, ids, j, sha);
    if Reaches(w, p, ids, j, sha) {
      EndedIsDone(At(w, p, ids, j, sha), ids[j], Loop(w, p, ids, sha).tables.escrows[ids[j]]);
    }
  }

  /**
   The loop over the player's unfinished escrows leaves every escrow of the player done exactly
   when it comes to the end: when each sell is taken by the exchange as its turn comes.
   */
  lemma LoopFinishesAll(w: Shop, p: Player, sha: string -> int)
    requires Kept(w, p, sha) && w.pc.Idle?
    ensures var ids := UnfinishedOf(w.tables, p, |w.tables.escrows|);
            var v := Loop(w, p, ids, sha);
            (forall e: nat :: Mine(w.tables, p, e) ==> e < |v.tables.escrows| && Done(v.tables.escrows[e]))
            <==> Reaches(w, p, ids, |ids|, sha)
  {
    hide Kept; hide Loop; hide Stuck; hide Ended; hide Wanted; hide Row; hide UnfinishedOf; hide Reaches; hide At;
    var ids := UnfinishedOf(w.tables, p, |w.tables.escrows|);
    var v := Loop(w, p, ids, sha);
    forall e: nat | Mine(w.tables, p, e) && e !in ids
      ensures e < |v.tables.escrows| && Done(v.tables.escrows[e])
    {
      MineIsRow(w, p, e, sha);
      LoopLeaves(w, p, ids, e, sha);
      FinishedIsDone(w, p, e, sha);
    }
    forall j: nat | j < |ids|
      ensures ids[j] < |v.tables.escrows|
      ensures Done(v.tables.escrows[ids[j]]) <==> Reaches(w, p, ids, j, sha) && !Stuck(At(w, p, ids, j, sha), ids[j])
    {
      UnfinishedIsOpen(w.tables.escrows[ids[j]]);
      DoneIfReached(w, p, ids, j, sha);
    }
    ReachesUpTo(w, p, ids, |ids|, sha);
    assert forall j: nat :: j < |ids| ==> Mine(w.tables, p, ids[j]);
  }

  lemma UnfinishedIsOpen(row: Escrow)
    requires Unfinished(row)
    ensures !Done(row)
  {
  }

  // ----- while all money inside fits 64 bits -----

  /** A sell that is to go through on an inactive market. */
  predicate Waits(w: Shop, e: Id)
  {
    Row(w.tables, e) && Wanted(w, e) && !w.tables.markets[w.tables.escrows[e].market].active
  }

  /** Reconciling one escrow changes neither the money nor what the others wait for. */
  lemma OthersWait(w: Shop, v: Shop, e: Id, d: Id)
    requires Row(w.tables, e) && Settled(w, v, e) && d != e && Row(w.tables, d)
    ensures Waits(v, d) <==> Waits(w, d)
    ensures Money(v.tables.floor) == Money(w.tables.floor)
  {
    hide Sum; hide Money; hide Restored; hide WithReceipts; hide Emptied; hide Accepts;
    OtherMarksStay(w.inv, e, ItemOf(w.tables, e), d);
  }

  lemma SolventStuck(w: Shop, p: Player, e: Id, sha: string -> int)
    requires Kept(w, p, sha) && Mine(w.tables, p, e) && Money(w.tables.floor) <= INT64_MAX
    ensures Stuck(w, e) <==> Waits(w, e)
  {
    hide Kept; hide Good; hide Accepts; hide Sum; hide Money;
    KeptRow(w, p, sha);
    SolventAccepts(w.tables, e, sha);
  }

  lemma SameFunds(w: Shop, v: Shop, e: Id)
    requires Row(w.tables, e) && Settled(w, v, e)
    ensures Money(v.tables.floor) == Money(w.tables.floor)
  {
    hide Money; hide Accepts;
  }

  lemma {:induction false} SolventReaches(w: Shop, p: Player, ids: seq<Id>, j: nat, sha: string -> int)
    requires Kept(w, p, sha) && w.pc.Idle? && AllMine(w.tables, p, ids) && Increasing(ids) && j <= |ids|
    requires Money(w.tables.floor) <= INT64_MAX
    ensures Reaches(w, p, ids, j, sha) <==> forall i: nat :: i < j ==> !Waits(w, ids[i])
    decreases j
  {
    hide Kept; hide Settled; hide Stuck; hide Waits; hide Money; hide Mine;
    if j > 0 {
      var v, rest := Next(w, p, ids, sha), ids[1..];
      assert Mine(w.tables, p, ids[0]);
      SolventStuck(w, p, ids[0], sha);
      SameFunds(w, v, ids[0]);
      SolventReaches(v, p, rest, j - 1, sha);
      forall i: nat | i < j - 1
        ensures Waits(v, rest[i]) <==> Waits(w, ids[i + 1])
      {
        assert Mine(w.tables, p, ids[i + 1]);
        MineIsRow(w, p, ids[i + 1], sha);
        OthersWait(w, v, ids[0], ids[i + 1]);
      }
      assert forall i: nat :: i < j - 1 ==> rest[i] == ids[i + 1];
      assert forall i: nat :: 0 < i < j ==> ids[i] == rest[i - 1];
    }
  }

  /** Then every escrow ends done exactly when none of the player's is to sell on an inactive market. */
  lemma SolventLoopFinishesAll(w: Shop, p: Player, sha: string -> int)
    requires Kept(w, p, sha) && w.pc.Idle? && Money(w.tables.floor) <= INT64_MAX
    ensures var v := Loop(w, p, UnfinishedOf(w.tables, p, |w.tables.escrows|), sha);
            (forall e: nat :: Mine(w.tables, p, e) ==> e < |v.tables.escrows| && Done(v.tables.escrows[e]))
            <==> (forall e: nat :: Mine(w.tables, p, e) ==> !Waits(w, e))
  {
    hide Kept; hide Loop; hide Stuck; hide Ended; hide Wanted; hide Row; hide UnfinishedOf; hide Reaches; hide Money;
    hide Done; hide Waits;
    var ids := UnfinishedOf(w.tables, p, |w.tables.escrows|);
    LoopFinishesAll(w, p, sha);
    SolventReaches(w, p, ids, |ids|, sha);
    forall e: nat | Mine(w.tables, p, e) && e !in ids
      ensures !Waits(w, e)
    {
      MineIsRow(w, p, e, sha);
      FinishedIsDone(w, p, e, sha);
      NotWanted(w, e);
    }
    assert forall i: nat :: i < |ids| ==> Mine(w.tables, p, ids[i]);
  }

  lemma NotWanted(w: Shop, e: Id)
    requires Row(w.tables, e) && !Wanted(w, e)
    ensures !Waits(w, e)
  {
  }
}
