/** Two kinds of runs of the transfer: recovery from any interruption, and the run that fools the decision. */
module SagaCases {
  import opened Sums
  import opened Domain
  import opened Matching
  import opened Settlement
  import opened Exchange
  import opened Invariants
  import opened StepsMoney
  import opened Saga

  // ----- recovery -----

  /** An honest and quiet world, in which nothing else is judged by the balance being changed. */
  ghost predicate Healthy(w: World, sha: string -> int)
  {
    Coherent(w, sha) && Honest(w) && Quiet(w) && (w.pc.Idle? || MayChange(w, w.pc.i))
  }

  /** A transfer that changes nothing, or is the only one judged by the balance it changes. */
  predicate MayChange(w: World, i: Id)
  {
    i < |w.tables.transfers| && (Alone(w, i) || !HasRoom(w, i))
  }

  /** The transfer being driven stays the same, and so does what it may do. */
  lemma MayChangeStays(w: World, outcome: Outcome)
    requires Sane(w) && !w.pc.Idle? && MayChange(w, w.pc.i)
    ensures var v := Take(w, outcome); v.pc.Idle? || (v.pc.i == w.pc.i && MayChange(v, v.pc.i))
  {
    var v := Take(w, outcome);
    if !v.pc.Idle? {
      assert forall j :: PendingOn(v, j, w.tables.transfers[w.pc.i].name) ==>
               PendingOn(w, j, w.tables.transfers[w.pc.i].name);
    }
  }

  lemma TakeKeepsHealthy(w: World, outcome: Outcome, sha: string -> int)
    requires Healthy(w, sha)
    ensures Sane(w) && Healthy(Take(w, outcome), sha) && Sane(Take(w, outcome))
  {
    hide Sum; hide Total; hide Good; hide Priced; hide Quiet; hide Honest; hide Take; hide Alone;
    if !w.pc.Idle? { MayChangeStays(w, outcome); } else { IdleTakesNothing(w, outcome); }
    QuietIsNotFooled(w, Proceed(outcome), sha);
    HonestUnlessFooled(w, Proceed(outcome), sha);
    TakeStaysQuiet(w, outcome, sha);
    TakeKeepsCoherent(w, outcome, sha);
  }

  lemma IdleTakesNothing(w: World, outcome: Outcome)
    requires Sane(w) && w.pc.Idle?
    ensures Take(w, outcome) == w
  {
  }

  /** `n` steps of `processEconomyTransfer` without an error. */
  ghost function Drive(w: World, n: nat, sha: string -> int): (v: World)
    requires Healthy(w, sha)
    ensures Healthy(v, sha)
    decreases n
  {
    if n == 0 then w
    else
      TakeKeepsHealthy(w, Done, sha);
      Drive(Take(w, Done), n - 1, sha)
  }

  /** Recovery can start wherever a crash left a PREPARED transfer. */
  lemma StartKeepsHealthy(w: World, i: Id, sha: string -> int)
    requires Healthy(w, sha) && MayChange(w, i)
    ensures Sane(w) && Healthy(w.(pc := Begin(w, i)), sha)
  {
    hide Sum; hide Total; hide Good; hide Priced; hide Alone;
    var v := w.(pc := Begin(w, i));
    assert Alone(v, i) == Alone(w, i) && HasRoom(v, i) == HasRoom(w, i) by { SameAlone(w, v, i); }
  }

  lemma SameAlone(w: World, v: World, i: Id)
    requires v.tables == w.tables
    ensures Alone(v, i) == Alone(w, i)
  {
    assert forall j, name :: PendingOn(v, j, name) == PendingOn(w, j, name);
  }

  lemma OwnerHasAccount(w: World, i: Id, sha: string -> int)
    requires Healthy(w, sha) && i < |w.tables.transfers|
    ensures w.tables.transfers[i].owner in w.tables.floor.accounts && 0 < w.tables.transfers[i].cents
    ensures 0 < w.tables.transfers[i].units
  {
    hide Sum; hide Total; hide Good; hide Priced; hide Honest; hide Quiet; hide Sane;
    TransferRowOk(w.tables, i, sha);
  }

  /** Where the next step leads, and what it leaves of the transfer's row. */
  lemma NextPlace(w: World, i: Id, sha: string -> int)
    requires Healthy(w, sha) && !w.pc.Idle? && w.pc.i == i && Sane(w) && (w.pc.Deciding? ==> HasRoom(w, i))
    requires !w.pc.Failing? && !w.pc.Blocking?
    ensures var v := Take(w, Done);
            && |v.hits| == |w.hits| && i < |w.hits|
            && match w.pc
               case Deciding(_) =>
                 v.hits == w.hits && (if w.hits[i] == 0 then v.pc == Changing(i) else v.pc.Marking? && v.pc.i == i)
               case Changing(_) => v.hits[i] == 1 && v.pc == Verifying(i)
               case Verifying(_) => v.hits[i] == 1 && v.pc.Marking? && v.pc.i == i
               case Marking(_, _) => v.hits[i] == 1 && v.pc == Completing(i)
               case Completing(_) => v.hits[i] == 1 && v.pc.Idle? && ClosedOut(v, i)
               case _ => true
  {
    hide Sum; hide Total; hide Good; hide Priced; hide Coherent;
    OwnerHasAccount(w, i, sha);
    assert HonestRow(w.tables.transfers[i], w.hits[i]);
    if w.pc.Deciding? || w.pc.Changing? || w.pc.Verifying? {
      assert Waiting(w, i) && Drift(w, i) == 0;
    }
  }

  /** COMPLETED, or a deposit that would push its owner's balance over the BIGINT range. */
  predicate ClosedOut(v: World, i: Id)
  {
    && i < |v.tables.transfers|
    && var x := v.tables.transfers[i];
       x.owner in v.tables.floor.accounts
       && if x.status.TransferCompleted? then true
          else x.status.ExternalApplied? && x.direction.Deposit?
               && v.tables.floor.accounts[x.owner] + x.cents > INT64_MAX
  }

  /** From wherever a transfer was interrupted, one undisturbed recovery applies it exactly once and closes it. */
  lemma RecoveryFinishes(w: World, i: Id, sha: string -> int)
    requires Healthy(w, sha) && w.pc.Idle? && i < |w.tables.transfers| && HasRoom(w, i) && Alone(w, i)
    requires var s := w.tables.transfers[i].status; s.TransferPrepared? || s.ExternalApplied?
    ensures Sane(w) && Healthy(w.(pc := Begin(w, i)), sha)
    ensures var v := Drive(w.(pc := Begin(w, i)), 5, sha);
            i < |v.hits| && v.hits[i] == 1 && v.pc.Idle? && ClosedOut(v, i)
  {
    hide Healthy; hide Sane; hide Take; hide Honest;
    StartKeepsHealthy(w, i, sha);
    var start := w.(pc := Begin(w, i));
    StartIsReady(w, i, sha);
    if start.pc.Deciding? { DriveDeciding(start, i, sha); } else { DriveCompleting(start, i, 5, sha); }
  }

  /**
   A PREPARED transfer that could never be applied changes nothing outside: without a baseline, or
   as a withdrawal beyond the external range, it is blocked; as a deposit of too much it fails.
   */
  lemma RecoveryRefuses(w: World, i: Id, sha: string -> int)
    requires Healthy(w, sha) && w.pc.Idle? && i < |w.tables.transfers| && !HasRoom(w, i)
    requires w.tables.transfers[i].status.TransferPrepared?
    ensures Sane(w) && Healthy(w.(pc := Begin(w, i)), sha)
    ensures var v := Drive(w.(pc := Begin(w, i)), 5, sha);
            && i < |w.hits| && w.hits[i] == 0 && v.pc.Idle? && v.hits == w.hits && v.ext == w.ext
            && |v.tables.transfers| == |w.tables.transfers|
            && var x := w.tables.transfers[i];
               v.tables.transfers[i].status == if x.before.Some? && x.direction.Deposit? then TransferFailed
                 else TransferBlocked
  {
    hide Healthy; hide Sane; hide Take;
    StartKeepsHealthy(w, i, sha);
    var start := w.(pc := Begin(w, i));
    RefusalBegins(w, i, sha);
    if start.pc.Deciding? {
      TakeKeepsHealthy(start, Done, sha);
      DriveRefusal(Take(start, Done), i, 4, sha);
    } else {
      DriveRefusal(start, i, 5, sha);
    }
  }

  /** Where such a transfer goes first: straight to its end, or there by way of one look at the balance. */
  lemma RefusalBegins(w: World, i: Id, sha: string -> int)
    requires Healthy(w, sha) && w.pc.Idle? && i < |w.tables.transfers| && !HasRoom(w, i)
    requires w.tables.transfers[i].status.TransferPrepared?
    ensures i < |w.hits| && w.hits[i] == 0
    ensures var start, x := w.(pc := Begin(w, i)), w.tables.transfers[i];
            && Sane(start)
            && (x.before.None? ==> start.pc == Blocking(i))
            && (x.before.Some? ==> start.pc == Deciding(i)
                                   && Take(start, Done)
                                      == w.(pc := if x.direction.Deposit? then Failing(i) else Blocking(i)))
  {
    hide Sum; hide Total; hide Good; hide Priced; hide Alone;
    OwnerHasAccount(w, i, sha);
    assert Settled(w.tables.transfers[i], w.hits[i]);
    assert Waiting(w, i);
    if w.tables.transfers[i].before.Some? { assert Drift(w, i) == 0; }
  }

  lemma DriveRefusal(w: World, i: Id, n: nat, sha: string -> int)
    requires Healthy(w, sha) && (w.pc == Failing(i) || w.pc == Blocking(i)) && 0 < n && i < |w.tables.transfers|
    requires w.pc == Failing(i) ==> w.tables.transfers[i].direction.Deposit?
    ensures var v := Drive(w, n, sha);
            && v.pc.Idle? && v.hits == w.hits && v.ext == w.ext && |v.tables.transfers| == |w.tables.transfers|
            && v.tables.transfers[i].status == if w.pc.Failing? then TransferFailed else TransferBlocked
  {
    hide Healthy; hide Sane;
    TakeKeepsHealthy(w, Done, sha);
    RefusalEnds(w, i, sha);
    hide Take;
    IdleStays(Take(w, Done), n - 1, sha);
  }

  lemma RefusalEnds(w: World, i: Id, sha: string -> int)
    requires Healthy(w, sha) && (w.pc == Failing(i) || w.pc == Blocking(i)) && i < |w.tables.transfers|
    requires w.pc == Failing(i) ==> w.tables.transfers[i].direction.Deposit?
    ensures Sane(w)
    ensures var v := Take(w, Done);
            && v.pc.Idle? && v.hits == w.hits && v.ext == w.ext && |v.tables.transfers| == |w.tables.transfers|
            && v.tables.transfers[i].status == if w.pc.Failing? then TransferFailed else TransferBlocked
  {
    hide Sum; hide Total; hide Good; hide Priced; hide Alone; hide Quiet; hide Honest;
  }

  lemma StartIsReady(w: World, i: Id, sha: string -> int)
    requires Healthy(w, sha) && i < |w.tables.transfers| && HasRoom(w, i)
    requires var s := w.tables.transfers[i].status; s.TransferPrepared? || s.ExternalApplied?
    ensures var start := w.(pc := Begin(w, i));
            Sane(start) && (start.pc == Completing(i) || (start.pc == Deciding(i) && HasRoom(start, i)))
  {
    hide Good; hide Sum; hide Total; hide Priced; hide Quiet; hide Honest;
  }

  lemma IdleStays(w: World, n: nat, sha: string -> int)
    requires Healthy(w, sha) && w.pc.Idle?
    ensures Drive(w, n, sha) == w
  {
    hide Healthy;
    if n > 0 {
      TakeKeepsHealthy(w, Done, sha);
      IdleStays(w, n - 1, sha);
    }
  }

  lemma DriveCompleting(w: World, i: Id, n: nat, sha: string -> int)
    requires Healthy(w, sha) && w.pc == Completing(i) && 0 < n
    ensures var v := Drive(w, n, sha); i < |v.hits| && v.hits[i] == 1 && v.pc.Idle? && ClosedOut(v, i)
  {
    hide Healthy; hide Take; hide Sane; hide ClosedOut;
    TakeKeepsHealthy(w, Done, sha);
    NextPlace(w, i, sha);
    IdleStays(Take(w, Done), n - 1, sha);
  }

  lemma DriveMarking(w: World, i: Id, n: nat, sha: string -> int)
    requires Healthy(w, sha) && w.pc.Marking? && w.pc.i == i && 1 < n
    ensures var v := Drive(w, n, sha); i < |v.hits| && v.hits[i] == 1 && v.pc.Idle? && ClosedOut(v, i)
  {
    hide Healthy; hide Take; hide Sane; hide ClosedOut;
    TakeKeepsHealthy(w, Done, sha);
    NextPlace(w, i, sha);
    DriveCompleting(Take(w, Done), i, n - 1, sha);
  }

  lemma DriveDeciding(w: World, i: Id, sha: string -> int)
    requires Healthy(w, sha) && w.pc == Deciding(i) && Sane(w) && HasRoom(w, i)
    ensures var v := Drive(w, 5, sha); i < |v.hits| && v.hits[i] == 1 && v.pc.Idle? && ClosedOut(v, i)
  {
    hide Healthy; hide Take; hide Sane; hide ClosedOut; hide HasRoom;
    TakeKeepsHealthy(w, Done, sha);
    NextPlace(w, i, sha);
    var a := Take(w, Done);
    if a.pc.Marking? {
      DriveMarking(a, i, 4, sha);
    } else {
      TakeKeepsHealthy(a, Done, sha);
      NextPlace(a, i, sha);
      var b := Take(a, Done);
      TakeKeepsHealthy(b, Done, sha);
      NextPlace(b, i, sha);
      DriveMarking(Take(b, Done), i, 2, sha);
    }
  }

  // ----- runs that are fooled -----

  /**
   The change of one transfer fools the decision about any other PREPARED transfer of the same player,
   direction and amount that was not applied yet: it is about to be taken for applied.
   */
  lemma OneChangeFoolsTheOther(w: World, i: Id, outcome: Outcome)
    requires Sane(w) && w.pc.Changing? && w.pc.i != i && i < |w.hits| && Waiting(w, i) && HasRoom(w, i)
    requires var x, y := w.tables.transfers[i], w.tables.transfers[w.pc.i];
             x.name == y.name && x.direction == y.direction && x.units == y.units && x.name in w.ext
             && 0 < x.units && w.hits[i] == 0 && Drift(w, i) == 0
    requires !outcome.ThrowsBefore?
    ensures var v := Take(w, outcome).(pc := Deciding(i));
            Sane(v) && Fooled(v, Proceed(Done)) && Judge(v, i).Marking? && v.hits[i] == 0
  {
  }

  /** A fresh database next to one player with ten units outside. */
  function Fresh(): World { World(Empty(), map["Steve" := 10], [], 10, Idle) }

  /**
   The change of a first deposit throws before it took effect and the player tries again with
   a second deposit of the same amount. Recovery then takes the second's change for the first's.
   */
  function TwoDeposits(): seq<Event>
  {
    var cfg := Config(0, 64);
    var deposit := Prepare(cfg, "id-1", "Steve", Deposit, 3, Some(10));
    var go := Proceed(Done);
    [deposit, Start(0), go, Proceed(ThrowsBefore), deposit, Start(1), go, go, go, go, go, Start(0), go, go, go]
  }

  function Row(status: TransferStatus, after: Option<int>): Transfer
  {
    Transfer("id-1", "Steve", Deposit, 300, 3, status, Some(10), after)
  }

  function Ledger(n: nat): seq<Entry>
    requires n <= 2
  {
    [Entry("id-1", 0, AccountOpened, None)]
    + (if n == 0 then [] else [Entry("id-1", 300, UmoneyDeposit, Some(1))])
    + (if n < 2 then [] else [Entry("id-1", 300, UmoneyDeposit, Some(0))])
  }

  /** The world of this run after some of its events. */
  function Scene(transfers: seq<Transfer>, deposited: nat, outside: int, hits: seq<nat>, pc: Place): World
    requires deposited <= 2
  {
    World(Empty().(floor := Floor(map["id-1" := 300 * deposited], Ledger(deposited), [], [], []),
                   transfers := transfers),
          map["Steve" := outside], hits, 10, pc)
  }

  lemma FreshIsCoherent(sha: string -> int)
    ensures Coherent(Fresh(), sha) && Honest(Fresh()) && Quiet(Fresh()) && EventsOk(TwoDeposits())
  {
    hide Good; hide Priced;
    EmptyIsGood(sha);
    GoodIsPriced(Empty(), sha);
    TotalUpdate(map[], "Steve", 10);
    assert map[]["Steve" := 10] == Fresh().ext;
    assert Zip([], []) == [];
  }

  lemma DepositPrepares(transfers: seq<Transfer>, hits: seq<nat>, sha: string -> int)
    requires |hits| == |transfers|
    ensures Priced(Empty()) && Priced(Scene(transfers, 0, 10, hits, Idle).tables)
    ensures Advance(Fresh(), TwoDeposits()[0], sha) == Scene([Row(TransferPrepared, None)], 0, 10, [0], Idle)
    ensures Advance(Scene(transfers, 0, 10, hits, Idle), TwoDeposits()[0], sha)
            == Scene(transfers + [Row(TransferPrepared, None)], 0, 10, hits + [0], Idle)
  {
    assert map[]["id-1" := 0] == map["id-1" := 0];
    assert [] + [Entry("id-1", 0, AccountOpened, None)] == Ledger(0);
  }

  lemma FirstDeposit(sha: string -> int)
    ensures Leads(Fresh(), TwoDeposits(), 1, Scene([Row(TransferPrepared, None)], 0, 10, [0], Idle), sha)
  {
    hide Leads; hide Coherent; hide Advance; hide Honest; hide Quiet; hide Priced;
    FreshIsCoherent(sha);
    LeadsNowhere(Fresh(), TwoDeposits(), sha);
    DepositPrepares([], [], sha);
    LeadsOn(Fresh(), TwoDeposits(), 0, Fresh(), Scene([Row(TransferPrepared, None)], 0, 10, [0], Idle), sha);
  }

  lemma FirstChange(sha: string -> int)
    ensures Leads(Fresh(), TwoDeposits(), 3, Scene([Row(TransferPrepared, None)], 0, 10, [0], Changing(0)), sha)
  {
    hide Leads; hide Step; hide Priced;
    var start, es, row := Fresh(), TwoDeposits(), [Row(TransferPrepared, None)];
    var deciding := Scene(row, 0, 10, [0], Deciding(0));
    FirstDeposit(sha);
    LeadsOn(start, es, 1, Scene(row, 0, 10, [0], Idle), deciding, sha);
    LeadsOn(start, es, 2, deciding, Scene(row, 0, 10, [0], Changing(0)), sha);
  }

  /** The first deposit stays PREPARED, not applied. */
  lemma FirstScenes(sha: string -> int)
    ensures Leads(Fresh(), TwoDeposits(), 4, Scene([Row(TransferPrepared, None)], 0, 10, [0], Idle), sha)
  {
    hide Leads; hide Step; hide Priced;
    var row := [Row(TransferPrepared, None)];
    FirstChange(sha);
    LeadsOn(Fresh(), TwoDeposits(), 3, Scene(row, 0, 10, [0], Changing(0)), Scene(row, 0, 10, [0], Idle), sha);
  }

  /** A second one is prepared from the same balance. */
  lemma SecondDeposit(sha: string -> int)
    ensures Leads(Fresh(), TwoDeposits(), 5,
                  Scene([Row(TransferPrepared, None), Row(TransferPrepared, None)], 0, 10, [0, 0], Idle), sha)
  {
    hide Leads; hide Advance; hide Priced;
    var row := [Row(TransferPrepared, None)];
    FirstScenes(sha);
    DepositPrepares(row, [0], sha);
    assert row + row == [Row(TransferPrepared, None), Row(TransferPrepared, None)] && [0] + [0] == [0, 0];
    LeadsOn(Fresh(), TwoDeposits(), 4, Scene(row, 0, 10, [0], Idle), Scene(row + row, 0, 10, [0, 0], Idle), sha);
  }

  lemma SecondChange(sha: string -> int)
    ensures Leads(Fresh(), TwoDeposits(), 7,
                  Scene([Row(TransferPrepared, None), Row(TransferPrepared, None)], 0, 10, [0, 0], Changing(1)), sha)
  {
    hide Leads; hide Step; hide Priced;
    var start, es, rows := Fresh(), TwoDeposits(), [Row(TransferPrepared, None), Row(TransferPrepared, None)];
    var deciding := Scene(rows, 0, 10, [0, 0], Deciding(1));
    SecondDeposit(sha);
    LeadsOn(start, es, 5, Scene(rows, 0, 10, [0, 0], Idle), deciding, sha);
    LeadsOn(start, es, 6, deciding, Scene(rows, 0, 10, [0, 0], Changing(1)), sha);
  }

  /** The second deposit is applied outside. */
  lemma SecondScenes(sha: string -> int)
    ensures Leads(Fresh(), TwoDeposits(), 9,
                  Scene([Row(TransferPrepared, None), Row(TransferPrepared, None)], 0, 7, [0, 1], Marking(1, 7)), sha)
  {
    hide Leads; hide Step; hide Priced;
    var start, es, rows := Fresh(), TwoDeposits(), [Row(TransferPrepared, None), Row(TransferPrepared, None)];
    var verifying := Scene(rows, 0, 7, [0, 1], Verifying(1));
    SecondChange(sha);
    LeadsOn(start, es, 7, Scene(rows, 0, 10, [0, 0], Changing(1)), verifying, sha);
    LeadsOn(start, es, 8, verifying, Scene(rows, 0, 7, [0, 1], Marking(1, 7)), sha);
  }

  /** And booked. */
  lemma ThirdScenes(sha: string -> int)
    ensures Leads(Fresh(), TwoDeposits(), 11,
                  Scene([Row(TransferPrepared, None), Row(TransferCompleted, Some(7))], 1, 7, [0, 1], Idle), sha)
  {
    hide Leads; hide Step; hide Priced;
    var start, es, waiting := Fresh(), TwoDeposits(), Row(TransferPrepared, None);
    var marking := Scene([waiting, waiting], 0, 7, [0, 1], Marking(1, 7));
    var completing := Scene([waiting, Row(ExternalApplied, Some(7))], 0, 7, [0, 1], Completing(1));
    SecondScenes(sha);
    LeadsOn(start, es, 9, marking, completing, sha);
    LeadsOn(start, es, 10, completing, Scene([waiting, Row(TransferCompleted, Some(7))], 1, 7, [0, 1], Idle), sha);
  }

  /** The first one is judged applied. */
  lemma FourthScenes(sha: string -> int)
    ensures Leads(Fresh(), TwoDeposits(), 13,
                  Scene([Row(TransferPrepared, None), Row(TransferCompleted, Some(7))], 1, 7, [0, 1], Marking(0, 7)),
                  sha)
  {
    hide Leads; hide Step; hide Priced;
    var start, es := Fresh(), TwoDeposits();
    var rows := [Row(TransferPrepared, None), Row(TransferCompleted, Some(7))];
    var deciding := Scene(rows, 1, 7, [0, 1], Deciding(0));
    ThirdScenes(sha);
    LeadsOn(start, es, 11, Scene(rows, 1, 7, [0, 1], Idle), deciding, sha);
    LeadsOn(start, es, 12, deciding, Scene(rows, 1, 7, [0, 1], Marking(0, 7)), sha);
  }

  /** And booked too. */
  lemma LastScenes(sha: string -> int)
    ensures Leads(Fresh(), TwoDeposits(), 15,
                  Scene([Row(TransferCompleted, Some(7)), Row(TransferCompleted, Some(7))], 2, 7, [0, 1], Idle), sha)
  {
    hide Leads; hide Step; hide Priced;
    var start, es, done := Fresh(), TwoDeposits(), Row(TransferCompleted, Some(7));
    var marking := Scene([Row(TransferPrepared, None), done], 1, 7, [0, 1], Marking(0, 7));
    var completing := Scene([Row(ExternalApplied, Some(7)), done], 1, 7, [0, 1], Completing(0));
    FourthScenes(sha);
    LeadsOn(start, es, 13, marking, completing, sha);
    LeadsOn(start, es, 14, completing, Scene([done, done], 2, 7, [0, 1], Idle), sha);
  }

  /**
   Two deposits of one player that are PREPARED at the same time can mint money: this run ends
   with both COMPLETED although only one change took effect outside.
   */
  lemma TwoPendingDepositsMint(sha: string -> int)
    ensures Coherent(Fresh(), sha) && Honest(Fresh()) && Quiet(Fresh()) && EventsOk(TwoDeposits())
    ensures var v := Play(Fresh(), TwoDeposits(), sha);
            && v.tables.transfers == [Row(TransferCompleted, Some(7)), Row(TransferCompleted, Some(7))]
            && v.hits == [0, 1] && v.ext == map["Steve" := 7] && v.tables.floor.accounts == map["id-1" := 600]
            && v.outside == Fresh().outside
  {
    hide Leads; hide Coherent; hide Play; hide EventsOk; hide Honest; hide Quiet;
    FreshIsCoherent(sha);
    var done := Row(TransferCompleted, Some(7));
    LastScenes(sha);
    LeadsToTheEnd(Fresh(), TwoDeposits(), Scene([done, done], 2, 7, [0, 1], Idle), sha);
  }
}
