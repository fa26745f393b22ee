/** The first loop of `claimDeliveries`: every claim an interruption left open is closed. */
module ClaimLoop {
  import opened Sums
  import opened Domain
  import opened Exchange
  import opened Invariants
  import opened Inventory
  import opened DeliveryClaims

  predicate Mine(t: Tables, p: Player, c: Id) { c < |t.claims| && t.claims[c].owner == p }

  predicate Unfinished(row: Claim) { row.status.ClaimPrepared? || (row.status.ClaimApplied? && !row.cleaned) }

  /** `unfinishedDeliveryClaims`: the player's open claims in the order they were made. */
  function UnfinishedOf(t: Tables, p: Player, n: nat): (ids: seq<Id>)
    requires n <= |t.claims|
    ensures forall k :: 0 <= k < |ids| ==> ids[k] < n && Mine(t, p, ids[k])
    ensures forall c: nat :: c < n && Mine(t, p, c) && Unfinished(t.claims[c]) ==> c in ids
  {
    if n == 0 then [] else
      var front := UnfinishedOf(t, p, n - 1);
      if Mine(t, p, n - 1) && Unfinished(t.claims[n - 1]) then front + [n - 1] else front
  }

  predicate AllMine(t: Tables, p: Player, ids: seq<Id>) { forall k :: 0 <= k < |ids| ==> Mine(t, p, ids[k]) }

  // ----- one claim -----

  /** All claims keep their owners, and all but one keep their rows. */
  predicate OthersSame(t: Tables, u: Tables, c: Id)
  {
    && |u.claims| == |t.claims|
    && forall d: nat :: d < |t.claims| ==>
         u.claims[d].owner == t.claims[d].owner && (d != c ==> u.claims[d] == t.claims[d])
  }

  lemma TakeLeavesOthers(w: Counter, p: Player, sha: string -> int)
    requires Kept(w, p, sha) && !w.at.Idle?
    ensures w.at.Untagging? || w.at.Discarding? ==> w.at.slot <= |w.inv|
    ensures OthersSame(w.tables, Take(w).tables, w.at.c)
    ensures Take(w).at.Idle? || Take(w).at.c == w.at.c
  {
    hide Kept; hide Sum; hide Good; hide Priced; hide SlotsOk; hide CompleteClaim; hide CleanClaim;
    KeptStage(w, p, sha);
    if w.at.Completing? { ClaimOpsChangeOneRow(w.tables, w.at.c, w.at.delivered); }
    if w.at.Cleaning? { ClaimOpsChangeOneRow(w.tables, w.at.c, 0); }
  }

  lemma {:induction false} DriveLeavesOthers(w: Counter, p: Player, sha: string -> int)
    requires Kept(w, p, sha) && !w.at.Idle?
    ensures OthersSame(w.tables, Drive(w, p, sha).tables, w.at.c)
    decreases Rank(w.at), Left(w)
  {
    hide Kept; hide Take; hide Mine;
    TakeGetsCloser(w, p, sha);
    TakeLeavesOthers(w, p, sha);
    if !Take(w).at.Idle? { DriveLeavesOthers(Take(w), p, sha); }
  }

  /** Where the loop stands after its first claim. */
  ghost function Next(w: Counter, p: Player, ids: seq<Id>, sha: string -> int): (v: Counter)
    requires Kept(w, p, sha) && w.at.Idle? && ids != [] && AllMine(w.tables, p, ids)
    ensures Kept(v, p, sha) && v.at.Idle? && AllMine(v.tables, p, ids)
    ensures OthersSame(w.tables, v.tables, ids[0]) && Closed(v, ids[0])
  {
    hide Kept; hide Closed; hide Begin; hide Drive;
    assert Mine(w.tables, p, ids[0]);
    ClaimRecoveryCloses(w, p, ids[0], sha);
    BeginStays(w, p, ids[0], sha);
    MineStays(w, Drive(w.(at := Begin(w, p, ids[0])), p, sha), p, ids);
    Drive(w.(at := Begin(w, p, ids[0])), p, sha)
  }

  lemma BeginStays(w: Counter, p: Player, c: Id, sha: string -> int)
    requires Kept(w, p, sha) && w.at.Idle? && Mine(w.tables, p, c) && Kept(w.(at := Begin(w, p, c)), p, sha)
    ensures OthersSame(w.tables, Drive(w.(at := Begin(w, p, c)), p, sha).tables, c)
  {
    hide Kept; hide Drive; hide Good; hide Sum; hide SlotsOk; hide Priced;
    KeptStage(w, p, sha);
    GoodClaimRow(w.tables, c, sha);
    DriveLeavesOthers(w.(at := Begin(w, p, c)), p, sha);
  }

  lemma MineStays(w: Counter, v: Counter, p: Player, ids: seq<Id>)
    requires ids != [] && AllMine(w.tables, p, ids) && OthersSame(w.tables, v.tables, ids[0])
    ensures AllMine(v.tables, p, ids)
  {
    forall k | 0 <= k < |ids|
      ensures Mine(v.tables, p, ids[k])
    {
      assert Mine(w.tables, p, ids[k]);
    }
  }

  // ----- the loop -----

  ghost function Recovered(w: Counter, p: Player, ids: seq<Id>, sha: string -> int): (v: Counter)
    requires Kept(w, p, sha) && w.at.Idle? && AllMine(w.tables, p, ids)
    ensures Kept(v, p, sha) && v.at.Idle?
    decreases |ids|
  {
    hide Kept;
    if ids == [] then w else Recovered(Next(w, p, ids, sha), p, ids[1..], sha)
  }

  predicate Finished(row: Claim) { row.status.ClaimCanceled? || (row.status.ClaimApplied? && row.cleaned) }

  /** The loop finishes the claims in its list and leaves the others. */
  lemma {:induction false} LoopFinishes(w: Counter, p: Player, ids: seq<Id>, c: Id, sha: string -> int)
    requires Kept(w, p, sha) && w.at.Idle? && AllMine(w.tables, p, ids)
    requires c < |w.tables.claims| && (c in ids || Finished(w.tables.claims[c]))
    ensures c < |Recovered(w, p, ids, sha).tables.claims| && Finished(Recovered(w, p, ids, sha).tables.claims[c])
    decreases |ids|
  {
    hide Kept; hide Mine; hide Next;
    if ids != [] {
      var v := Next(w, p, ids, sha);
      assert Closed(v, ids[0]);
      assert c in ids ==> c == ids[0] || c in ids[1..];
      LoopFinishes(v, p, ids[1..], c, sha);
    }
  }

  lemma FinishedIsClosed(w: Counter, p: Player, c: Id, sha: string -> int)
    requires Kept(w, p, sha) && c < |w.tables.claims| && Finished(w.tables.claims[c])
    ensures Closed(w, c)
  {
    hide Kept; hide Good; hide Priced; hide Sum;
    KeptStage(w, p, sha);
    forall i | 0 <= i < |w.inv|
      ensures !IsClaimed(w.inv[i], c)
    {
      assert SlotOk(w.tables, p, w.inv[i]);
    }
  }

  /** After the loop every claim of the player is canceled, or applied and cleaned, and no tag of any is left. */
  lemma AllClaimsClose(w: Counter, p: Player, c: Id, sha: string -> int)
    requires Kept(w, p, sha) && w.at.Idle? && Mine(w.tables, p, c)
    ensures Closed(Recovered(w, p, UnfinishedOf(w.tables, p, |w.tables.claims|), sha), c)
  {
    hide Kept; hide Recovered; hide Closed;
    var ids := UnfinishedOf(w.tables, p, |w.tables.claims|);
    LoopFinishes(w, p, ids, c, sha);
    FinishedIsClosed(Recovered(w, p, ids, sha), p, c, sha);
  }
}
