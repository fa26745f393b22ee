/**
 The transfer between UMoney and the exchange as a run of small steps. Any step may be the
 last before a crash, the external change may throw before or after it took effect, and
 others may write the external balance or call the service between any two steps.
 */
module Saga {
  import opened Sums
  import opened Domain
  import opened Settlement
  import opened Exchange
  import opened Invariants
  import opened StepsMoney
  import opened Growth
  import opened Matching
  import opened Runs
  import opened Guarantees

  datatype Decision = Apply | AlreadyApplied | Conflict | Insufficient

  /** `decideUmoneyMutation`. */
  function Decide(direction: Direction, units: int, before: int, current: int): Decision
  {
    if units <= 0 then Conflict
    else if direction.Deposit? then
      if before < units then (if current == before then Insufficient else Conflict)
      else if current == before - units then AlreadyApplied
      else if current == before then Apply
      else Conflict
    else if before > INT64_MAX - units then Conflict
    else if current == before + units then AlreadyApplied
    else if current == before then Apply
    else Conflict
  }

  /** What a transfer does to the external balance of its player. */
  function Delta(direction: Direction, units: int): int
  {
    if direction.Deposit? then -units else units
  }

  /** The baseline leaves room for the transfer. */
  predicate Room(direction: Direction, units: int, before: int)
  {
    if direction.Deposit? then units <= before else before <= INT64_MAX - units
  }

  /** Where `processEconomyTransfer` stands between two of its effects. */
  datatype Place =
    | Idle
    | Deciding(i: Id) | Changing(i: Id) | Verifying(i: Id) | Marking(i: Id, balance: int)
    | Completing(i: Id) | Failing(i: Id) | Blocking(i: Id)

  /**
   The database, the external balances, how often the external change of each transfer took
   effect, what everybody else did to the external balances, and the step to take next.
   */
  datatype World = World(tables: Tables, ext: map<string, int>, hits: seq<nat>, outside: int, pc: Place)

  /** How the external change ends: done, thrown before it took effect, or thrown after. */
  datatype Outcome = Done | ThrowsBefore | ThrowsAfter

  datatype Event =
    | Serve(call: Call)
    | Prepare(cfg: Config, p: Player, name: string, direction: Direction, units: int, before: Option<int>)
    | Start(id: Id)
    | Proceed(outcome: Outcome)
    | Crash
    | Foreign(name: string, balance: Option<int>)

  predicate DrivesTransfers(a: Action)
  {
    a.DoPrepareTransfer? || a.DoMarkExternalApplied? || a.DoCompleteTransfer? || a.DoFailTransfer? || a.DoBlockTransfer?
  }

  predicate EventOk(e: Event)
  {
    match e
    case Serve(call) => ConfigOk(call.cfg) && !DrivesTransfers(call.action)
    case Prepare(cfg, _, _, _, _, _) => ConfigOk(cfg)
    case _ => true
  }

  function PrepareAction(e: Event): Action
    requires e.Prepare?
  {
    DoPrepareTransfer(e.p, e.name, e.direction, e.units * 100, e.units, e.before)
  }

  function Begin(w: World, i: Id): Place
  {
    if i >= |w.tables.transfers| then Idle
    else
      match w.tables.transfers[i].status
      case ExternalApplied => Completing(i)
      case TransferPrepared => if w.tables.transfers[i].before.None? then Blocking(i) else Deciding(i)
      case _ => Idle
  }

  function Judge(w: World, i: Id): Place
    requires i < |w.tables.transfers| && w.tables.transfers[i].before.Some?
  {
    var x := w.tables.transfers[i];
    if x.name !in w.ext then Idle
    else
      match Decide(x.direction, x.units, x.before.value, w.ext[x.name])
      case Insufficient => Failing(i)
      case Conflict => Blocking(i)
      case AlreadyApplied => Marking(i, w.ext[x.name])
      case Apply => Changing(i)
  }

  function Change(w: World, i: Id, outcome: Outcome): World
    requires i < |w.tables.transfers| && i < |w.hits|
  {
    var x := w.tables.transfers[i];
    if outcome.ThrowsBefore? || x.name !in w.ext then w.(pc := Idle)
    else w.(ext := w.ext[x.name := w.ext[x.name] + Delta(x.direction, x.units)], hits := w.hits[i := w.hits[i] + 1],
            pc := if outcome.Done? then Verifying(i) else Idle)
  }

  function Verify(w: World, i: Id): Place
    requires i < |w.tables.transfers| && w.tables.transfers[i].before.Some?
  {
    var x := w.tables.transfers[i];
    if x.name !in w.ext then Idle
    else if Decide(x.direction, x.units, x.before.value, w.ext[x.name]).AlreadyApplied? then Marking(i, w.ext[x.name])
    else Blocking(i)
  }

  /** The step at `pc` is one `processEconomyTransfer` can take. */
  predicate Sane(w: World)
  {
    && |w.hits| == |w.tables.transfers|
    && match w.pc
       case Idle => true
       case Deciding(i) => i < |w.hits| && Waiting(w, i) && w.tables.transfers[i].before.Some?
       case Changing(i) => i < |w.hits| && Waiting(w, i) && HasRoom(w, i)
       case Verifying(i) => i < |w.hits| && Waiting(w, i) && HasRoom(w, i)
       case Marking(i, _) => i < |w.hits| && Waiting(w, i) && HasRoom(w, i)
       case Completing(i) =>
         i < |w.hits|
         && (w.tables.transfers[i].status.ExternalApplied? || w.tables.transfers[i].status.TransferCompleted?)
       case Failing(i) => i < |w.hits| && Waiting(w, i) && !HasRoom(w, i)
       case Blocking(i) => i < |w.hits| && Waiting(w, i)
  }

  predicate Waiting(w: World, i: Id)
    requires i < |w.tables.transfers|
  {
    w.tables.transfers[i].status.TransferPrepared?
  }

  predicate HasRoom(w: World, i: Id)
    requires i < |w.tables.transfers|
  {
    var x := w.tables.transfers[i];
    x.before.Some? && Room(x.direction, x.units, x.before.value)
  }

  function Take(w: World, outcome: Outcome): World
    requires Sane(w)
  {
    var t := w.tables;
    match w.pc
    case Idle => w
    case Deciding(i) => w.(pc := Judge(w, i))
    case Changing(i) => Change(w, i, outcome)
    case Verifying(i) => w.(pc := Verify(w, i))
    case Marking(i, balance) => w.(tables := After(t, MarkExternalApplied(t, i, balance)), pc := Completing(i))
    case Completing(i) => w.(tables := After(t, CompleteTransfer(t, i)), pc := Idle)
    case Failing(i) => w.(tables := After(t, FailTransfer(t, i)), pc := Idle)
    case Blocking(i) => w.(tables := After(t, BlockTransfer(t, i)), pc := Idle)
  }

  function Advance(w: World, e: Event, sha: string -> int): World
    requires Sane(w) && Priced(w.tables)
  {
    match e
    case Serve(call) => w.(tables := Step(w.tables, call.cfg, sha, call.action))
    case Prepare(cfg, _, _, _, _, _) =>
      var u := Step(w.tables, cfg, sha, PrepareAction(e));
      w.(tables := u, hits := if |u.transfers| > |w.hits| then w.hits + [0] else w.hits)
    case Start(i) => if w.pc.Idle? then w.(pc := Begin(w, i)) else w
    case Proceed(outcome) => Take(w, outcome)
    case Crash => w.(pc := Idle)
    case Foreign(name, balance) =>
      var was := if name in w.ext then w.ext[name] else 0;
      if balance.Some? then w.(ext := w.ext[name := balance.value], outside := w.outside + balance.value - was)
      else w.(ext := w.ext - {name}, outside := w.outside - was)
  }

  // ----- what every step keeps, whatever the environment does -----

  /** A transfer with the number of times its external change took effect. */
  type Tracked = (Transfer, nat)

  function Zip(transfers: seq<Transfer>, hits: seq<nat>): seq<Tracked>
    requires |hits| == |transfers|
  {
    seq(|hits|, i requires 0 <= i < |hits| => (transfers[i], hits[i]))
  }

  function Pushed(): Tracked -> int
  {
    (x: Tracked) => x.1 * Delta(x.0.direction, x.0.units)
  }

  /** Facts about one transfer that hold no matter who else writes the external balance. */
  predicate Settled(x: Transfer, hits: nat)
  {
    && x.cents == 100 * x.units
    && (0 < hits ==> x.before.Some? && Room(x.direction, x.units, x.before.value))
    && (x.status.TransferFailed? ==> hits == 0)
  }

  ghost predicate Coherent(w: World, sha: string -> int)
  {
    && Sane(w) && Good(w.tables, sha) && Priced(w.tables)
    && (forall i: nat :: i < |w.hits| ==> Settled(w.tables.transfers[i], w.hits[i]))
    && Total(w.ext) == w.outside + Sum(Zip(w.tables.transfers, w.hits), Pushed())
  }

  lemma ZipUpdate(transfers: seq<Transfer>, hits: seq<nat>, i: Id, x: Transfer, h: nat)
    requires |hits| == |transfers| && i < |hits|
    ensures Zip(transfers[i := x], hits[i := h]) == Zip(transfers, hits)[i := (x, h)]
  {
  }

  lemma ZipAppend(transfers: seq<Transfer>, hits: seq<nat>, x: Transfer, h: nat)
    requires |hits| == |transfers|
    ensures Zip(transfers + [x], hits + [h]) == Zip(transfers, hits) + [(x, h)]
  {
  }

  /** The other operations of the service leave the transfer table alone. */
  lemma OthersLeaveTransfers(t: Tables, cfg: Config, sha: string -> int, a: Action)
    requires Priced(t) && !DrivesTransfers(a)
    ensures Step(t, cfg, sha, a).transfers == t.transfers
  {
  }

  lemma TakeKeepsGood(w: World, outcome: Outcome, sha: string -> int)
    requires Sane(w) && Good(w.tables, sha)
    ensures Good(Take(w, outcome).tables, sha)
  {
    hide Good; hide MarkExternalApplied; hide CompleteTransfer; hide FailTransfer; hide BlockTransfer;
    match w.pc
    case Marking(i, balance) => MarkExternalAppliedKeepsGood(w.tables, i, balance, sha);
    case Completing(i) => CompleteTransferKeepsGood(w.tables, i, sha);
    case Failing(i) => FailTransferKeepsGood(w.tables, i, sha);
    case Blocking(i) => BlockTransferKeepsGood(w.tables, i, sha);
    case _ =>
  }

  lemma SameDeltas(s: seq<Transfer>, n: seq<Transfer>, hits: seq<nat>)
    requires |s| == |n| == |hits|
    requires forall i :: 0 <= i < |s| ==> n[i].direction == s[i].direction && n[i].units == s[i].units
    ensures Sum(Zip(n, hits), Pushed()) == Sum(Zip(s, hits), Pushed())
    decreases |s|
  {
    if s != [] {
      var m := |s| - 1;
      SameDeltas(s[..m], n[..m], hits[..m]);
      assert Zip(s, hits)[..m] == Zip(s[..m], hits[..m]) && Zip(n, hits)[..m] == Zip(n[..m], hits[..m]);
    }
  }

  /** One step of `processEconomyTransfer` stays on its path and accounts for what it pushed outside. */
  lemma TakeKeepsCoherent(w: World, outcome: Outcome, sha: string -> int)
    requires Coherent(w, sha)
    ensures Coherent(Take(w, outcome), sha)
  {
    hide Sum; hide Total; hide Good; hide Priced;
    TakeKeepsGood(w, outcome, sha);
    var v := Take(w, outcome);
    GoodIsPriced(v.tables, sha);
    if w.pc.Changing? && v.hits != w.hits {
      var i := w.pc.i;
      var x := w.tables.transfers[i];
      assert w.tables.transfers[i := x] == w.tables.transfers;
      ZipUpdate(w.tables.transfers, w.hits, i, x, w.hits[i] + 1);
      SumUpdate(Zip(w.tables.transfers, w.hits), i, (x, w.hits[i] + 1), Pushed());
      TotalUpdate(w.ext, x.name, w.ext[x.name] + Delta(x.direction, x.units));
      PushOnce(w.hits[i], Delta(x.direction, x.units));
    } else {
      SameDeltas(w.tables.transfers, v.tables.transfers, w.hits);
    }
  }

  lemma PushOnce(h: nat, d: int)
    ensures (h + 1) * d == h * d + d
  {
  }

  lemma PrepareAddsOneRow(t: Tables, e: Event, sha: string -> int)
    requires Priced(t) && e.Prepare?
    ensures var u := Step(t, e.cfg, sha, PrepareAction(e));
            || u.transfers == t.transfers
            || (u.transfers == t.transfers + [Transfer(e.p, e.name, e.direction, e.units * 100, e.units,
                                                       TransferPrepared,
                                                      e.before, None)]
                && 0 < e.units)
  {
    hide Priced; hide EnsureAccount;
  }

  lemma PrepareKeepsCoherent(w: World, e: Event, sha: string -> int)
    requires Coherent(w, sha) && e.Prepare? && EventOk(e)
    ensures Coherent(Advance(w, e, sha), sha)
  {
    hide Sum; hide Total; hide Good; hide Priced; hide Step;
    var u := Step(w.tables, e.cfg, sha, PrepareAction(e));
    StepKeepsGood(w.tables, e.cfg, sha, PrepareAction(e));
    GoodIsPriced(u, sha);
    PrepareAddsOneRow(w.tables, e, sha);
    if u.transfers != w.tables.transfers {
      var row := u.transfers[|w.hits|];
      ZipAppend(w.tables.transfers, w.hits, row, 0);
      SumAppend(Zip(w.tables.transfers, w.hits), (row, 0), Pushed());
    }
  }

  lemma ForeignKeepsCoherent(w: World, e: Event, sha: string -> int)
    requires Coherent(w, sha) && e.Foreign?
    ensures Coherent(Advance(w, e, sha), sha)
  {
    hide Sum; hide Total; hide Good; hide Priced;
    if e.balance.Some? {
      TotalUpdate(w.ext, e.name, e.balance.value);
    } else if e.name in w.ext {
      TotalRemove(w.ext, e.name);
    } else {
      assert w.ext - {e.name} == w.ext;
    }
  }

  lemma AdvanceKeepsCoherent(w: World, e: Event, sha: string -> int)
    requires Coherent(w, sha) && EventOk(e)
    ensures Coherent(Advance(w, e, sha), sha)
  {
    hide Sum; hide Total; hide Good; hide Priced; hide Step; hide Take;
    match e
    case Serve(call) =>
      StepKeepsGood(w.tables, call.cfg, sha, call.action);
      GoodIsPriced(Step(w.tables, call.cfg, sha, call.action), sha);
      OthersLeaveTransfers(w.tables, call.cfg, sha, call.action);
    case Prepare(_, _, _, _, _, _) => PrepareKeepsCoherent(w, e, sha);
    case Start(i) =>
    case Proceed(outcome) => TakeKeepsCoherent(w, outcome, sha);
    case Crash =>
    case Foreign(_, _) => ForeignKeepsCoherent(w, e, sha);
  }

  // ----- exactly once -----

  /** The status of a transfer agrees with how often its external change took effect. */
  predicate HonestRow(x: Transfer, hits: nat)
  {
    match x.status
    case TransferPrepared => hits <= 1
    case ExternalApplied => hits == 1
    case TransferCompleted => hits == 1
    case TransferFailed => hits == 0
    case TransferBlocked => hits <= 1
  }

  /** Every transfer is honest, and the step to take next does not break that. */
  ghost predicate Honest(w: World)
    requires Sane(w)
  {
    && (forall i: nat :: i < |w.hits| ==> HonestRow(w.tables.transfers[i], w.hits[i]))
    && match w.pc
       case Changing(i) => w.hits[i] == 0
       case Verifying(i) => w.hits[i] == 1
       case Marking(i, _) => w.hits[i] == 1
       case _ => true
  }

  /** How far a player's external balance is from what this transfer's baseline and its own change explain. */
  function Drift(w: World, i: Id): int
    requires Sane(w) && i < |w.hits| && w.tables.transfers[i].before.Some? && w.tables.transfers[i].name in w.ext
  {
    var x := w.tables.transfers[i];
    w.ext[x.name] - x.before.value - w.hits[i] * Delta(x.direction, x.units)
  }

  /**
   The one way to mistake a transfer: it is about to be judged, and somebody moved the balance
   by exactly its amount, forward when it was not applied and backward when it was.
   */
  predicate Fooled(w: World, e: Event)
    requires Sane(w)
  {
    && e.Proceed? && w.pc.Deciding? && w.tables.transfers[w.pc.i].name in w.ext && HasRoom(w, w.pc.i)
    && var x := w.tables.transfers[w.pc.i];
       Drift(w, w.pc.i) == (if w.hits[w.pc.i] == 0 then Delta(x.direction, x.units) else -Delta(x.direction, x.units))
  }

  /** Judging a transfer right is the same as not being fooled. */
  lemma JudgedRight(w: World, i: Id)
    requires Sane(w) && w.pc == Deciding(i) && w.hits[i] <= 1 && 0 < w.tables.transfers[i].units
    ensures Fooled(w, Proceed(Done)) <==>
              (Judge(w, i).Changing? && w.hits[i] == 1) || (Judge(w, i).Marking? && w.hits[i] == 0)
  {
  }

  lemma UnitsArePositive(t: Tables, i: Id, sha: string -> int)
    requires Good(t, sha) && i < |t.transfers|
    ensures 0 < t.transfers[i].units
  {
    hide Sum; hide Total; hide Sound; hide MarketsOk; hide ClaimsOk; hide EscrowsOk; hide ItemsOk; hide CashOk;
    hide SalesOk; hide ListingsOk;
  }

  /** Honesty survives a step exactly when the step does not judge a fooled transfer. */
  lemma HonestUnlessFooled(w: World, e: Event, sha: string -> int)
    requires Coherent(w, sha) && EventOk(e) && Honest(w)
    ensures Sane(Advance(w, e, sha))
    ensures Honest(Advance(w, e, sha)) <==> !Fooled(w, e)
  {
    hide Sum; hide Total; hide Good; hide Priced; hide Step;
    AdvanceKeepsCoherent(w, e, sha);
    match e
    case Serve(call) => OthersLeaveTransfers(w.tables, call.cfg, sha, call.action);
    case Prepare(_, _, _, _, _, _) => PrepareAddsOneRow(w.tables, e, sha);
    case Start(i) =>
    case Crash =>
    case Foreign(_, _) =>
    case Proceed(outcome) =>
      if w.pc.Deciding? {
        UnitsArePositive(w.tables, w.pc.i, sha);
        assert HonestRow(w.tables.transfers[w.pc.i], w.hits[w.pc.i]);
        JudgedRight(w, w.pc.i);
      } else {
        TakeStaysHonest(w, outcome, sha);
      }
  }

  lemma TakeStaysHonest(w: World, outcome: Outcome, sha: string -> int)
    requires Coherent(w, sha) && Honest(w) && !w.pc.Deciding?
    ensures Sane(Take(w, outcome)) && Honest(Take(w, outcome))
  {
    hide Sum; hide Total; hide Good; hide Priced;
    TakeKeepsCoherent(w, outcome, sha);
  }

  // ----- runs -----

  predicate EventsOk(events: seq<Event>)
  {
    forall i :: 0 <= i < |events| ==> EventOk(events[i])
  }

  /** The world after a run of events. */
  ghost function Play(w: World, events: seq<Event>, sha: string -> int): (v: World)
    requires Coherent(w, sha) && EventsOk(events)
    ensures Coherent(v, sha) && Sane(v) && Priced(v.tables)
  {
    if events == [] then w
    else
      var n := |events| - 1;
      var before := Play(w, events[..n], sha);
      AdvanceKeepsCoherent(before, events[n], sha);
      Advance(before, events[n], sha)
  }

  /** One event from any world; every world of a run is ready for it. */
  function Turn(w: World, e: Event, sha: string -> int): World
  {
    if Sane(w) && Priced(w.tables) then Advance(w, e, sha) else w
  }

  lemma PlayLast(w: World, events: seq<Event>, front: seq<Event>, v: World, sha: string -> int)
    requires Coherent(w, sha) && EventsOk(events) && events != [] && front == events[..|events| - 1]
    requires Play(w, front, sha) == v
    ensures Sane(v) && Priced(v.tables) && Play(w, events, sha) == Turn(v, events[|events| - 1], sha)
  {
    hide Coherent; hide Advance; hide Sane; hide Priced; hide EventOk;
  }

  /** The first `n` events lead from `w` to `v`. */
  ghost predicate Leads(w: World, events: seq<Event>, n: nat, v: World, sha: string -> int)
  {
    Coherent(w, sha) && EventsOk(events) && n <= |events| && Play(w, events[..n], sha) == v
  }

  lemma LeadsNowhere(w: World, events: seq<Event>, sha: string -> int)
    requires Coherent(w, sha) && EventsOk(events)
    ensures Leads(w, events, 0, w, sha)
  {
    hide Coherent; hide EventOk;
  }

  lemma LeadsOn(w: World, events: seq<Event>, n: nat, v: World, u: World, sha: string -> int)
    requires Leads(w, events, n, v, sha) && n < |events|
    requires Sane(v) && Priced(v.tables) ==> Turn(v, events[n], sha) == u
    ensures Sane(v) && Priced(v.tables) && Leads(w, events, n + 1, u, sha)
  {
    hide Coherent; hide Turn; hide Sane; hide Priced; hide EventOk; hide Play;
    assert events[..n + 1][..n] == events[..n];
    PlayLast(w, events[..n + 1], events[..n], v, sha);
  }

  lemma LeadsToTheEnd(w: World, events: seq<Event>, v: World, sha: string -> int)
    requires Leads(w, events, |events|, v, sha)
    ensures Coherent(w, sha) && EventsOk(events) && Play(w, events, sha) == v
  {
    hide Coherent; hide EventOk; hide Play;
    assert events[..|events|] == events;
  }

  /** The statuses after the first `n` events agree with what happened outside. */
  ghost predicate HonestAt(w: World, events: seq<Event>, n: nat, sha: string -> int)
    requires Coherent(w, sha) && EventsOk(events) && n <= |events|
  {
    Honest(Play(w, events[..n], sha))
  }

  /** Event `n` judges a transfer whose player's balance somebody moved by just its amount. */
  ghost predicate FooledAt(w: World, events: seq<Event>, n: nat, sha: string -> int)
    requires Coherent(w, sha) && EventsOk(events) && n < |events|
  {
    Fooled(Play(w, events[..n], sha), events[n])
  }

  lemma HonestAtNext(w: World, events: seq<Event>, n: nat, sha: string -> int)
    requires Coherent(w, sha) && EventsOk(events) && n < |events| && HonestAt(w, events, n, sha)
    ensures HonestAt(w, events, n + 1, sha) <==> !FooledAt(w, events, n, sha)
  {
    hide Coherent; hide Honest; hide Fooled; hide Sane; hide Advance; hide EventOk; hide Priced;
    var v := Play(w, events[..n], sha);
    LeadsOn(w, events, n, v, Turn(v, events[n], sha), sha);
    HonestUnlessFooled(Play(w, events[..n], sha), events[n], sha);
  }

  lemma HonestAtStart(w: World, events: seq<Event>, sha: string -> int)
    requires Coherent(w, sha) && EventsOk(events) && Honest(w)
    ensures HonestAt(w, events, 0, sha)
  {
    hide Coherent; hide Honest; hide Sane; hide Advance; hide EventOk; hide Priced;
  }

  lemma {:induction false} HonestIfNeverFooled(w: World, events: seq<Event>, n: nat, sha: string -> int)
    requires Coherent(w, sha) && EventsOk(events) && Honest(w) && n <= |events|
    requires forall k: nat :: k < n ==> !FooledAt(w, events, k, sha)
    ensures HonestAt(w, events, n, sha)
  {
    hide Coherent; hide HonestAt; hide FooledAt; hide EventsOk; hide Sane; hide Honest;
    if n == 0 {
      HonestAtStart(w, events, sha);
    } else {
      HonestIfNeverFooled(w, events, n - 1, sha);
      HonestAtNext(w, events, n - 1, sha);
    }
  }

  /** A run is honest at every point exactly when it never judges a transfer it is fooled about. */
  lemma HonestIffNeverFooled(w: World, events: seq<Event>, sha: string -> int)
    requires Coherent(w, sha) && EventsOk(events) && Honest(w)
    ensures (forall n: nat :: n <= |events| ==> HonestAt(w, events, n, sha))
       <==> (forall n: nat :: n < |events| ==> !FooledAt(w, events, n, sha))
  {
    hide Coherent; hide HonestAt; hide FooledAt; hide EventsOk; hide Sane; hide Honest;
    if forall n: nat :: n < |events| ==> !FooledAt(w, events, n, sha) {
      forall n: nat | n <= |events|
        ensures HonestAt(w, events, n, sha)
      {
        HonestIfNeverFooled(w, events, n, sha);
      }
    }
    if forall n: nat :: n <= |events| ==> HonestAt(w, events, n, sha) {
      forall n: nat | n < |events|
        ensures !FooledAt(w, events, n, sha)
      {
        assert HonestAt(w, events, n, sha) && HonestAt(w, events, n + 1, sha);
        HonestAtNext(w, events, n, sha);
      }
    }
  }

  // ----- runs without foreign writers -----

  /** A PREPARED transfer that will be judged by the balance of this player. */
  predicate PendingOn(w: World, i: Id, name: string)
  {
    && i < |w.tables.transfers| && w.tables.transfers[i].status.TransferPrepared?
    && w.tables.transfers[i].before.Some? && w.tables.transfers[i].name == name
  }

  /** No other PREPARED transfer is judged by the balance that transfer `i` changes. */
  predicate Alone(w: World, i: Id)
  {
    i < |w.tables.transfers| ==>
      forall j :: 0 <= j < |w.tables.transfers| && j != i ==> !PendingOn(w, j, w.tables.transfers[i].name)
  }

  /**
   Nobody, not even another transfer, writes a player's balance while a transfer judged by it is
   PREPARED, and baselines are read without delay.
   */
  predicate Undisturbed(w: World, e: Event)
  {
    match e
    case Foreign(name, _) => forall i :: 0 <= i < |w.tables.transfers| ==> !PendingOn(w, i, name)
    case Prepare(_, _, name, _, _, before) => before.Some? ==> name in w.ext && w.ext[name] == before.value
    case Proceed(_) => w.pc.Changing? ==> Alone(w, w.pc.i)
    case _ => true
  }

  /** Every PREPARED transfer with a baseline explains its player's balance. */
  ghost predicate Quiet(w: World)
    requires Sane(w)
  {
    forall i: nat :: i < |w.hits| && Waiting(w, i) && w.tables.transfers[i].before.Some? ==>
      w.tables.transfers[i].name in w.ext && Drift(w, i) == 0
  }

  lemma QuietIsNotFooled(w: World, e: Event, sha: string -> int)
    requires Coherent(w, sha) && Quiet(w)
    ensures !Fooled(w, e)
  {
    hide Sum; hide Total; hide Good; hide Priced;
    if w.pc.Deciding? {
      UnitsArePositive(w.tables, w.pc.i, sha);
    }
  }

  lemma TakeStaysQuiet(w: World, outcome: Outcome, sha: string -> int)
    requires Coherent(w, sha) && Quiet(w) && Undisturbed(w, Proceed(outcome))
    ensures Sane(Take(w, outcome)) && Quiet(Take(w, outcome))
  {
    hide Sum; hide Total; hide Good; hide Priced;
    TakeKeepsCoherent(w, outcome, sha);
    var v := Take(w, outcome);
    if w.pc.Changing? {
      PushOnce(w.hits[w.pc.i], Delta(w.tables.transfers[w.pc.i].direction, w.tables.transfers[w.pc.i].units));
      forall j: nat | j < |v.hits| && Waiting(v, j) && v.tables.transfers[j].before.Some?
        ensures v.tables.transfers[j].name in v.ext && Drift(v, j) == 0
      {
        assert Waiting(w, j) && Drift(w, j) == 0;
        if j != w.pc.i { assert !PendingOn(w, j, w.tables.transfers[w.pc.i].name); }
      }
    } else {
      assert forall i: nat :: i < |w.hits| && Waiting(v, i) ==> Waiting(w, i);
    }
  }

  lemma ForeignStaysQuiet(w: World, e: Event, sha: string -> int)
    requires Sane(w) && Priced(w.tables) && Quiet(w) && e.Foreign? && Undisturbed(w, e)
    ensures Sane(Advance(w, e, sha)) && Quiet(Advance(w, e, sha))
  {
    hide Priced;
    var v := Advance(w, e, sha);
    forall i: nat | i < |v.hits| && Waiting(v, i) && v.tables.transfers[i].before.Some?
      ensures v.tables.transfers[i].name in v.ext && Drift(v, i) == 0
    {
      assert Waiting(w, i) && !PendingOn(w, i, e.name);
      assert Drift(w, i) == 0;
    }
  }

  lemma PrepareStaysQuiet(w: World, e: Event, sha: string -> int)
    requires Coherent(w, sha) && EventOk(e) && Quiet(w) && e.Prepare? && Undisturbed(w, e)
    ensures Sane(Advance(w, e, sha)) && Quiet(Advance(w, e, sha))
  {
    hide Sum; hide Total; hide Good; hide Priced; hide Step;
    AdvanceKeepsCoherent(w, e, sha);
    PrepareAddsOneRow(w.tables, e, sha);
    var v := Advance(w, e, sha);
    forall i: nat | i < |v.hits| && Waiting(v, i) && v.tables.transfers[i].before.Some?
      ensures v.tables.transfers[i].name in v.ext && Drift(v, i) == 0
    {
      if i < |w.hits| { assert Waiting(w, i) && Drift(w, i) == 0; }
    }
  }

  lemma StaysQuiet(w: World, e: Event, sha: string -> int)
    requires Coherent(w, sha) && EventOk(e) && Quiet(w) && Undisturbed(w, e)
    ensures Sane(Advance(w, e, sha)) && Quiet(Advance(w, e, sha))
  {
    hide Sum; hide Total; hide Good; hide Priced; hide Step;
    AdvanceKeepsCoherent(w, e, sha);
    match e
    case Serve(call) => OthersLeaveTransfers(w.tables, call.cfg, sha, call.action);
    case Prepare(_, _, _, _, _, _) => PrepareStaysQuiet(w, e, sha);
    case Proceed(outcome) => TakeStaysQuiet(w, outcome, sha);
    case Foreign(_, _) => ForeignStaysQuiet(w, e, sha);
    case Start(_) =>
    case Crash =>
  }

  ghost predicate UndisturbedRun(w: World, events: seq<Event>, sha: string -> int)
    requires Coherent(w, sha) && EventsOk(events)
  {
    forall n: nat :: n < |events| ==> Undisturbed(Play(w, events[..n], sha), events[n])
  }

  /**
   Without foreign writers every external change happens at most once, a COMPLETED transfer's
   exactly once and a FAILED one's never, whatever throws or crashes in between.
   */
  lemma {:induction false} UndisturbedRunsAreHonest(w: World, events: seq<Event>, sha: string -> int)
    requires Coherent(w, sha) && EventsOk(events) && Honest(w) && Quiet(w) && UndisturbedRun(w, events, sha)
    ensures var v := Play(w, events, sha);
            Honest(v) && Quiet(v)
            && forall i: nat :: i < |v.hits| ==>
                 && v.hits[i] <= 1
                 && (v.tables.transfers[i].status.TransferCompleted? ==> v.hits[i] == 1)
                 && (v.tables.transfers[i].status.TransferFailed? ==> v.hits[i] == 0)
    decreases |events|
  {
    hide Coherent; hide Quiet; hide Undisturbed; hide Sane;
    if events != [] {
      var n := |events| - 1;
      var front := events[..n];
      assert forall k: nat :: k < n ==> front[..k] == events[..k] && front[k] == events[k];
      UndisturbedRunsAreHonest(w, front, sha);
      var v := Play(w, front, sha);
      QuietIsNotFooled(v, events[n], sha);
      HonestUnlessFooled(v, events[n], sha);
      StaysQuiet(v, events[n], sha);
    }
    RowsAtMostOnce(Play(w, events, sha));
  }

  lemma RowsAtMostOnce(v: World)
    requires Sane(v) && Honest(v)
    ensures forall i: nat :: i < |v.hits| ==>
              && v.hits[i] <= 1
              && (v.tables.transfers[i].status.TransferCompleted? ==> v.hits[i] == 1)
              && (v.tables.transfers[i].status.TransferFailed? ==> v.hits[i] == 0)
  {
    forall i: nat | i < |v.hits|
      ensures v.hits[i] <= 1
      ensures v.tables.transfers[i].status.TransferCompleted? ==> v.hits[i] == 1
      ensures v.tables.transfers[i].status.TransferFailed? ==> v.hits[i] == 0
    {
      assert HonestRow(v.tables.transfers[i], v.hits[i]);
    }
  }

  // ----- conservation -----

  /** Cents in transit: withdrawals not yet paid outside, deposits taken outside and not yet in a balance. */
  function Held(): Tracked -> int
  {
    (x: Tracked) =>
      if x.0.direction.Withdraw? then
        (if x.1 == 0 && (x.0.status.TransferPrepared? || x.0.status.TransferBlocked?) then x.0.cents else 0)
      else (if 0 < x.1 && !x.0.status.TransferCompleted? then x.0.cents else 0)
  }

  lemma {:induction false} TransitBalances(transfers: seq<Transfer>, hits: seq<nat>)
    requires |hits| == |transfers|
    requires forall i: nat :: i < |hits| ==> Settled(transfers[i], hits[i]) && HonestRow(transfers[i], hits[i])
    ensures 100 * Sum(Zip(transfers, hits), Pushed()) + Sum(transfers, NetOf()) + Sum(Zip(transfers, hits), Held()) == 0
    decreases |hits|
  {
    if hits != [] {
      var n := |hits| - 1;
      TransitBalances(transfers[..n], hits[..n]);
      assert Zip(transfers, hits)[..n] == Zip(transfers[..n], hits[..n]);
      assert Settled(transfers[n], hits[n]) && HonestRow(transfers[n], hits[n]);
    }
  }

  /** All the money there is, inside and outside and on its way. */
  ghost function Wealth(w: World): int
    requires |w.hits| == |w.tables.transfers|
  {
    100 * Total(w.ext) + Money(w.tables.floor) + Sum(Zip(w.tables.transfers, w.hits), Held())
  }

  /** In an honest world it is what was minted and what others put outside. */
  lemma WealthAddsUp(w: World, sha: string -> int)
    requires Coherent(w, sha) && Honest(w)
    ensures Wealth(w) == Sum(w.tables.floor.ledger, Minted()) + 100 * w.outside
  {
    assert CashOk(w.tables.floor, w.tables.transfers);
    hide Sum; hide Total; hide Good; hide Money; hide Position; hide Priced;
    TransitBalances(w.tables.transfers, w.hits);
  }

  /** An event that neither mints money inside nor writes balances outside. */
  predicate Closed(e: Event)
  {
    match e
    case Serve(call) => call.cfg.initialBalance == 0 && !call.action.DoAddBalance?
    case Prepare(cfg, _, _, _, _, _) => cfg.initialBalance == 0
    case Foreign(_, _) => false
    case _ => true
  }

  lemma TakeMintsNothing(w: World, outcome: Outcome)
    requires Sane(w)
    ensures Take(w, outcome).outside == w.outside
    ensures NothingMinted(w.tables.floor.ledger, Take(w, outcome).tables.floor.ledger)
  {
    hide Credit; hide Debit;
    MovesMintNothing(w.tables);
  }

  lemma ClosedStepMints(w: World, e: Event, sha: string -> int)
    requires Coherent(w, sha) && EventOk(e) && Closed(e)
    ensures var v := Advance(w, e, sha);
            v.outside == w.outside && Sum(v.tables.floor.ledger, Minted()) == Sum(w.tables.floor.ledger, Minted())
  {
    hide Sum; hide Total; hide Good; hide Priced; hide Step; hide Take; hide Opens;
    match e
    case Serve(call) =>
      OpenedKeepsGood(w.tables, call.cfg, call.action, sha);
      StepMints(w.tables, call, sha);
    case Prepare(cfg, _, _, _, _, _) =>
      OpenedKeepsGood(w.tables, cfg, PrepareAction(e), sha);
      StepMints(w.tables, Call(cfg, PrepareAction(e)), sha);
    case Proceed(outcome) =>
      TakeMintsNothing(w, outcome);
      SumOverGrowth(w.tables.floor.ledger, Take(w, outcome).tables.floor.ledger, Minted());
    case _ =>
  }

  lemma {:induction false} ClosedRunMints(w: World, events: seq<Event>, sha: string -> int)
    requires Coherent(w, sha) && EventsOk(events) && forall i :: 0 <= i < |events| ==> Closed(events[i])
    ensures var v := Play(w, events, sha);
            v.outside == w.outside && Sum(v.tables.floor.ledger, Minted()) == Sum(w.tables.floor.ledger, Minted())
    decreases |events|
  {
    hide Sum; hide Coherent; hide Sane; hide Priced; hide Advance; hide EventOk; hide Closed;
    if events != [] {
      var n := |events| - 1;
      ClosedRunMints(w, events[..n], sha);
      ClosedStepMints(Play(w, events[..n], sha), events[n], sha);
    }
  }

  /** In a closed run that is never fooled no cent is made or lost, across both systems and any crash. */
  lemma WealthIsConserved(w: World, events: seq<Event>, sha: string -> int)
    requires Coherent(w, sha) && EventsOk(events) && Honest(w) && forall i :: 0 <= i < |events| ==> Closed(events[i])
    requires forall n: nat :: n < |events| ==> !FooledAt(w, events, n, sha)
    ensures Wealth(Play(w, events, sha)) == Wealth(w)
  {
    hide Sum; hide Coherent; hide Sane; hide Priced; hide Advance; hide EventOk; hide Closed; hide Honest; hide Wealth;
    hide FooledAt;
    HonestIfNeverFooled(w, events, |events|, sha);
    assert events[..|events|] == events;
    ClosedRunMints(w, events, sha);
    WealthAddsUp(w, sha);
    WealthAddsUp(Play(w, events, sha), sha);
  }

  lemma UndisturbedPrefix(w: World, events: seq<Event>, n: nat, sha: string -> int)
    requires Coherent(w, sha) && EventsOk(events) && n <= |events| && UndisturbedRun(w, events, sha)
    ensures UndisturbedRun(w, events[..n], sha)
  {
    hide Coherent; hide Undisturbed; hide Play; hide EventOk;
    forall k: nat | k < n
      ensures Undisturbed(Play(w, events[..n][..k], sha), events[..n][k])
    {
      assert events[..n][..k] == events[..k];
    }
  }

  /** An undisturbed run is never fooled. */
  lemma UndisturbedIsNeverFooled(w: World, events: seq<Event>, n: nat, sha: string -> int)
    requires Coherent(w, sha) && EventsOk(events) && Honest(w) && Quiet(w) && UndisturbedRun(w, events, sha)
    requires n < |events|
    ensures !FooledAt(w, events, n, sha)
  {
    hide Coherent; hide Honest; hide Quiet; hide UndisturbedRun; hide FooledAt; hide EventOk; hide Play;
    UndisturbedPrefix(w, events, n, sha);
    UndisturbedPrefix(w, events, n + 1, sha);
    UndisturbedRunsAreHonest(w, events[..n], sha);
    UndisturbedRunsAreHonest(w, events[..n + 1], sha);
    HonestAtNext(w, events, n, sha);
  }

  /** So the two-system total is constant over undisturbed closed runs, whatever throws or crashes in them. */
  lemma UndisturbedWealthIsConserved(w: World, events: seq<Event>, sha: string -> int)
    requires Coherent(w, sha) && EventsOk(events) && Honest(w) && Quiet(w) && UndisturbedRun(w, events, sha)
    requires forall i :: 0 <= i < |events| ==> Closed(events[i])
    ensures Wealth(Play(w, events, sha)) == Wealth(w)
  {
    hide Coherent; hide Honest; hide Quiet; hide UndisturbedRun; hide FooledAt; hide EventOk; hide Play; hide Wealth;
    forall n: nat | n < |events|
      ensures !FooledAt(w, events, n, sha)
    {
      UndisturbedIsNeverFooled(w, events, n, sha);
    }
    WealthIsConserved(w, events, sha);
  }
}
