/**
 Moving money between the two systems for a player: `fundDirectBalance` deposits what a purchase
 lacks, `sweepDirectBalances` withdraws whole units. Each prepares a transfer from the balance just
 read and processes it.
 */
module Funding {
  import opened Sums
  import opened Domain
  import opened Matching
  import opened Settlement
  import opened Exchange
  import opened Invariants
  import opened StepsMoney
  import opened Runs
  import opened Saga
  import opened EconomyPlugin
  import Pricing

  // ----- a transfer prepared from the balance as it is -----

  /** The transfer's change and both of its transactions. */
  function Applied(w: World, i: Id): World
    requires i < |w.tables.transfers| && i < |w.hits| && w.tables.transfers[i].name in w.ext
  {
    var x := w.tables.transfers[i];
    var balance := w.ext[x.name] + Delta(x.direction, x.units);
    var marked := After(w.tables, MarkExternalApplied(w.tables, i, balance));
    World(After(marked, CompleteTransfer(marked, i)), w.ext[x.name := balance], w.hits[i := w.hits[i] + 1], w.outside,
          Idle)
  }

  lemma SettleOn(w: World, sha: string -> int)
    requires Coherent(w, sha) && !w.pc.Idle?
    ensures Sane(w) && Coherent(Take(w, Done), sha)
    ensures Settle(w, Done, None, sha) == Settle(Take(w, Done), Done, None, sha)
  {
    hide Good; hide Priced; hide Sum; hide Total; hide Take;
    TakeKeepsCoherent(w, Done, sha);
  }

  lemma SettleIdle(w: World, sha: string -> int)
    requires Coherent(w, sha) && w.pc.Idle?
    ensures Settle(w, Done, None, sha) == w
  {
    hide Coherent;
  }

  predicate Fresh(w: World, i: Id)
  {
    && i < |w.tables.transfers| && i < |w.hits|
    && var x := w.tables.transfers[i];
       x.status.TransferPrepared? && 0 < x.units && x.name in w.ext && x.before == Some(w.ext[x.name])
  }

  /** A fresh transfer with room is applied; one without is failed or blocked. */
  lemma FreshIsJudged(w: World, i: Id)
    requires Sane(w) && w.pc == Deciding(i) && Fresh(w, i)
    ensures var x := w.tables.transfers[i];
            Take(w, Done) == w.(pc := if HasRoom(w, i) then Changing(i)
                                      else if x.direction.Deposit? then Failing(i) else Blocking(i))
  {
  }

  lemma ChangeIsVerified(w: World, i: Id)
    requires Sane(w) && w.pc == Changing(i) && Fresh(w, i)
    ensures var x := w.tables.transfers[i];
            var balance := w.ext[x.name] + Delta(x.direction, x.units);
            var v := w.(ext := w.ext[x.name := balance], hits := w.hits[i := w.hits[i] + 1], pc := Verifying(i));
            && Take(w, Done) == v && Sane(v) && Take(v, Done) == v.(pc := Marking(i, balance))
  {
  }

  lemma FreshIsApplied(w: World, i: Id, sha: string -> int)
    requires Coherent(w, sha) && w.pc == Deciding(i) && Fresh(w, i) && HasRoom(w, i)
    ensures Settle(w, Done, None, sha) == Applied(w, i)
  {
    hide Coherent; hide Settle; hide Take; hide Fresh; hide HasRoom; hide Sane; hide MarkExternalApplied;
    hide CompleteTransfer;
    SettleOn(w, sha);
    FreshIsJudged(w, i);
    var a := Take(w, Done);
    SameFresh(w, a, i);
    SettleOn(a, sha);
    ChangeIsVerified(a, i);
    var b := Take(a, Done);
    SettleOn(b, sha);
    var c := Take(b, Done);
    SettleOn(c, sha);
    TakeBooks(c);
    var d := Take(c, Done);
    SettleOn(d, sha);
    TakeBooks(d);
    SettleIdle(Take(d, Done), sha);
    FreshRow(w, i);
  }

  lemma FreshRow(w: World, i: Id)
    requires Fresh(w, i)
    ensures i < |w.tables.transfers| && i < |w.hits| && w.tables.transfers[i].name in w.ext
  {
  }

  lemma SameFresh(w: World, v: World, i: Id)
    requires v.tables == w.tables && v.ext == w.ext && v.hits == w.hits
    ensures Fresh(v, i) <==> Fresh(w, i)
  {
  }

  lemma TakeBooks(w: World)
    requires Sane(w)
    ensures match w.pc
            case Marking(i, balance) =>
              Take(w, Done) == w.(tables := After(w.tables, MarkExternalApplied(w.tables, i, balance)),
                                  pc := Completing(i))
            case Completing(i) =>
              Take(w, Done) == w.(tables := After(w.tables, CompleteTransfer(w.tables, i)), pc := Idle)
            case Blocking(i) => Take(w, Done) == w.(tables := After(w.tables, BlockTransfer(w.tables, i)), pc := Idle)
            case _ => true
  {
    hide MarkExternalApplied; hide CompleteTransfer; hide BlockTransfer;
  }

  lemma FreshIsBlocked(w: World, i: Id, sha: string -> int)
    requires Coherent(w, sha) && w.pc == Deciding(i) && Fresh(w, i) && !HasRoom(w, i)
    requires w.tables.transfers[i].direction.Withdraw?
    ensures Settle(w, Done, None, sha) == w.(tables := After(w.tables, BlockTransfer(w.tables, i)), pc := Idle)
  {
    hide Coherent; hide Settle; hide Take; hide Fresh; hide HasRoom; hide Sane; hide BlockTransfer;
    FreshRow(w, i);
    SettleOn(w, sha);
    FreshIsJudged(w, i);
    var a := Take(w, Done);
    SettleOn(a, sha);
    TakeBooks(a);
    SettleIdle(Take(a, Done), sha);
  }

  /** A row as `prepareEconomyTransfer` inserts it. */
  function NewRow(w: World, p: Player, name: string, direction: Direction, units: int): Transfer
    requires name in w.ext
  {
    Transfer(p, name, direction, units * 100, units, TransferPrepared, Some(w.ext[name]), None)
  }

  /** Prepares a transfer from the balance just read and, unless that is refused, processes it. */
  ghost function Transferred(w: World, cfg: Config, p: Player, name: string, direction: Direction, units: int,
                             sha: string -> int): World
    requires Coherent(w, sha) && w.pc.Idle? && ConfigOk(cfg) && name in w.ext
  {
    var e := Prepare(cfg, p, name, direction, units, Some(w.ext[name]));
    AdvanceKeepsCoherent(w, e, sha);
    var u := Advance(w, e, sha);
    if |u.tables.transfers| == |w.tables.transfers| then u
    else Process(u, |w.tables.transfers|, Done, None, sha)
  }

  /** The tables once the row is inserted; a withdrawal takes its cents at once. */
  function Prepared(w: World, p: Player, name: string, direction: Direction, units: int): Tables
    requires name in w.ext && p in w.tables.floor.accounts
  {
    var t, n := w.tables, |w.tables.transfers|;
    t.(floor := if direction.Withdraw? then Move(t.floor, p, -(units * 100), UmoneyWithdrawReserved, Some(n))
                else t.floor,
       transfers := t.transfers + [NewRow(w, p, name, direction, units)])
  }

  /** What a player with an account, a name and, for a withdrawal, enough money asks for is prepared. */
  predicate Granted(w: World, p: Player, name: string, direction: Direction, units: int)
  {
    && p in w.tables.floor.accounts && p != "" && name != "" && name in w.ext && 0 < units
    && (direction.Withdraw? ==> units * 100 <= w.tables.floor.accounts[p])
  }

  lemma StepPrepares(w: World, cfg: Config, p: Player, name: string, direction: Direction, units: int,
                     sha: string -> int)
    requires Priced(w.tables) && Granted(w, p, name, direction, units)
    ensures Step(w.tables, cfg, sha, DoPrepareTransfer(p, name, direction, units * 100, units, Some(w.ext[name])))
            == Prepared(w, p, name, direction, units)
  {
    hide Priced;
  }

  lemma StartsFresh(w: World, cfg: Config, p: Player, name: string, direction: Direction, units: int,
                    sha: string -> int)
    requires Coherent(w, sha) && w.pc.Idle? && ConfigOk(cfg) && Granted(w, p, name, direction, units)
    ensures var n := |w.hits|;
            var u := w.(tables := Prepared(w, p, name, direction, units), hits := w.hits + [0]);
            && n == |w.tables.transfers| && Coherent(u, sha) && Coherent(u.(pc := Deciding(n)), sha)
            && Fresh(u.(pc := Deciding(n)), n) && u.tables.transfers[n] == NewRow(w, p, name, direction, units)
            && Transferred(w, cfg, p, name, direction, units, sha) == Settle(u.(pc := Deciding(n)), Done, None, sha)
  {
    hide Good; hide Priced; hide Sum; hide Total; hide Step; hide Settle; hide Prepared;
    var e := Prepare(cfg, p, name, direction, units, Some(w.ext[name]));
    AdvanceKeepsCoherent(w, e, sha);
    StepPrepares(w, cfg, p, name, direction, units, sha);
    PreparedRow(w, p, name, direction, units);
    StartIsCoherent(Advance(w, e, sha), |w.hits|, sha);
  }

  lemma PreparedRow(w: World, p: Player, name: string, direction: Direction, units: int)
    requires Granted(w, p, name, direction, units)
    ensures Prepared(w, p, name, direction, units).transfers
            == w.tables.transfers + [NewRow(w, p, name, direction, units)]
    ensures 0 < units
  {
  }

  // ----- deposits -----

  /**
   A deposit that leaves the balance within 64 bits is completed: the units are gone outside and
   their cents are on the account. Otherwise the units are gone and the transfer waits to be credited.
   */
  lemma DepositFinishes(w: World, cfg: Config, p: Player, name: string, units: int, sha: string -> int)
    requires Coherent(w, sha) && w.pc.Idle? && ConfigOk(cfg) && Granted(w, p, name, Deposit, units)
             && units <= w.ext[name]
    ensures var v, row := Transferred(w, cfg, p, name, Deposit, units, sha), NewRow(w, p, name, Deposit, units);
            var n, balance := |w.tables.transfers|, w.ext[name] - units;
            && v.ext == w.ext[name := balance] && v.hits == w.hits + [1] && v.pc.Idle?
            && if w.tables.floor.accounts[p] + units * 100 <= INT64_MAX then
                 v.tables == w.tables.(
                   floor := Move(w.tables.floor, p, units * 100, UmoneyDeposit, Some(n)),
                   transfers := w.tables.transfers + [row.(status := TransferCompleted, after := Some(balance))])
               else
                 v.tables == w.tables.(
                   transfers := w.tables.transfers + [row.(status := ExternalApplied, after := Some(balance))])
  {
    hide Coherent; hide Settle; hide Transferred; hide Fresh; hide Sane;
    StartsFresh(w, cfg, p, name, Deposit, units, sha);
    var n := |w.tables.transfers|;
    var u := w.(tables := Prepared(w, p, name, Deposit, units), hits := w.hits + [0], pc := Deciding(n));
    FreshIsApplied(u, n, sha);
    DepositIsBooked(w, u, p, name, units);
  }

  lemma DepositIsBooked(w: World, u: World, p: Player, name: string, units: int)
    requires Granted(w, p, name, Deposit, units) && |w.hits| == |w.tables.transfers|
    requires u == w.(tables := Prepared(w, p, name, Deposit, units), hits := w.hits + [0], pc := Deciding(|w.hits|))
    ensures var v, row := Applied(u, |w.hits|), NewRow(w, p, name, Deposit, units);
            var n, balance := |w.tables.transfers|, w.ext[name] - units;
            && v.ext == w.ext[name := balance] && v.hits == w.hits + [1] && v.pc.Idle?
            && if w.tables.floor.accounts[p] + units * 100 <= INT64_MAX then
                 v.tables == w.tables.(
                   floor := Move(w.tables.floor, p, units * 100, UmoneyDeposit, Some(n)),
                   transfers := w.tables.transfers + [row.(status := TransferCompleted, after := Some(balance))])
               else
                 v.tables == w.tables.(
                   transfers := w.tables.transfers + [row.(status := ExternalApplied, after := Some(balance))])
  {
    var n, row := |w.hits|, NewRow(w, p, name, Deposit, units);
    var x := row.(status := ExternalApplied, after := Some(w.ext[name] - units));
    assert (w.hits + [0])[n := 1] == w.hits + [1];
    assert (w.tables.transfers + [row])[n := x] == w.tables.transfers + [x];
    assert (w.tables.transfers + [x])[n := x.(status := TransferCompleted)]
           == w.tables.transfers + [x.(status := TransferCompleted)];
  }

  // ----- withdrawals -----

  /**
   A withdrawal takes its cents at once. It is completed when the player's balance outside has room
   for the units; otherwise it is BLOCKED, and the cents are on neither side.
   */
  lemma WithdrawalFinishes(w: World, cfg: Config, p: Player, name: string, units: int, sha: string -> int)
    requires Coherent(w, sha) && w.pc.Idle? && ConfigOk(cfg) && Granted(w, p, name, Withdraw, units)
    ensures var v, row := Transferred(w, cfg, p, name, Withdraw, units, sha), NewRow(w, p, name, Withdraw, units);
            var n, balance := |w.tables.transfers|, w.ext[name] + units;
            && v.tables.floor == Move(w.tables.floor, p, -(units * 100), UmoneyWithdrawReserved, Some(n)) && v.pc.Idle?
            && if balance <= INT64_MAX then
                 && v.ext == w.ext[name := balance] && v.hits == w.hits + [1]
                 && v.tables.transfers
                    == w.tables.transfers + [row.(status := TransferCompleted, after := Some(balance))]
               else
                 && v.ext == w.ext && v.hits == w.hits + [0]
                 && v.tables.transfers == w.tables.transfers + [row.(status := TransferBlocked)]
  {
    hide Coherent; hide Settle; hide Transferred; hide Fresh; hide Sane;
    StartsFresh(w, cfg, p, name, Withdraw, units, sha);
    var n := |w.tables.transfers|;
    var u := w.(tables := Prepared(w, p, name, Withdraw, units), hits := w.hits + [0], pc := Deciding(n));
    if w.ext[name] + units <= INT64_MAX {
      FreshIsApplied(u, n, sha);
      WithdrawalIsBooked(w, u, p, name, units);
    } else {
      FreshIsBlocked(u, n, sha);
      WithdrawalIsBlocked(w, u, p, name, units);
    }
  }

  lemma WithdrawalIsBooked(w: World, u: World, p: Player, name: string, units: int)
    requires Granted(w, p, name, Withdraw, units) && |w.hits| == |w.tables.transfers|
    requires u == w.(tables := Prepared(w, p, name, Withdraw, units), hits := w.hits + [0], pc := Deciding(|w.hits|))
    ensures var v, row := Applied(u, |w.hits|), NewRow(w, p, name, Withdraw, units);
            var n, balance := |w.tables.transfers|, w.ext[name] + units;
            && v.tables.floor == Move(w.tables.floor, p, -(units * 100), UmoneyWithdrawReserved, Some(n)) && v.pc.Idle?
            && v.ext == w.ext[name := balance] && v.hits == w.hits + [1]
            && v.tables.transfers == w.tables.transfers + [row.(status := TransferCompleted, after := Some(balance))]
  {
    var n, row := |w.hits|, NewRow(w, p, name, Withdraw, units);
    var x := row.(status := ExternalApplied, after := Some(w.ext[name] + units));
    assert (w.hits + [0])[n := 1] == w.hits + [1];
    assert (w.tables.transfers + [row])[n := x] == w.tables.transfers + [x];
    assert (w.tables.transfers + [x])[n := x.(status := TransferCompleted)]
           == w.tables.transfers + [x.(status := TransferCompleted)];
  }

  lemma WithdrawalIsBlocked(w: World, u: World, p: Player, name: string, units: int)
    requires Granted(w, p, name, Withdraw, units) && |w.hits| == |w.tables.transfers|
    requires u == w.(tables := Prepared(w, p, name, Withdraw, units), hits := w.hits + [0], pc := Deciding(|w.hits|))
    ensures var t, row := After(u.tables, BlockTransfer(u.tables, |w.hits|)), NewRow(w, p, name, Withdraw, units);
            && t.floor == Move(w.tables.floor, p, -(units * 100), UmoneyWithdrawReserved, Some(|w.tables.transfers|))
            && t.transfers == w.tables.transfers + [row.(status := TransferBlocked)]
  {
    var n, row := |w.hits|, NewRow(w, p, name, Withdraw, units);
    assert (w.tables.transfers + [row])[n := row.(status := TransferBlocked)]
           == w.tables.transfers + [row.(status := TransferBlocked)];
  }

  // ----- the two procedures -----

  function External(w: World, name: string): Option<int> { if name in w.ext then Some(w.ext[name]) else None }

  /** `fundDirectBalance`, up to its last check of the balance. */
  ghost function Fund(w: World, cfg: Config, p: Player, name: string, required: int, sha: string -> int): World
    requires Coherent(w, sha) && w.pc.Idle? && ConfigOk(cfg) && p in w.tables.floor.accounts
  {
    match Pricing.FundingUnits(w.tables.floor.accounts[p], required, External(w, name))
    case Err(_) => w
    case Ok(None) => w
    case Ok(Some(units)) => Transferred(w, cfg, p, name, Deposit, units, sha)
  }

  lemma AccountFits(w: World, p: Player, sha: string -> int)
    requires Coherent(w, sha) && p in w.tables.floor.accounts
    ensures 0 <= w.tables.floor.accounts[p] <= INT64_MAX
  {
    hide Sum; hide Total; hide Sane; hide Priced;
  }

  /**
   Funding leaves the player with what is required and less than one unit more, unless UMoney lacks
   it or its whole units would overflow the balance. Nothing else changes hands.
   */
  lemma FundFinishes(w: World, cfg: Config, p: Player, name: string, required: int, sha: string -> int)
    requires Coherent(w, sha) && w.pc.Idle? && ConfigOk(cfg) && p in w.tables.floor.accounts && p != "" && name != ""
    requires w.tables.floor.accounts[p] < required <= INT64_MAX && 0 < required
    ensures var v, before := Fund(w, cfg, p, name, required, sha), w.tables.floor.accounts[p];
            var units := (required - before + 99) / 100;
            if External(w, name).None? || w.ext[name] < units || INT64_MAX / 100 < units then v == w
            else
              && p in v.tables.floor.accounts && v.ext == w.ext[name := w.ext[name] - units]
              && if before + units * 100 <= INT64_MAX then
                   && v.tables.floor.accounts == w.tables.floor.accounts[p := before + units * 100]
                   && required <= v.tables.floor.accounts[p] < required + 100
                 else v.tables.floor == w.tables.floor
  {
    hide Coherent; hide Transferred;
    AccountFits(w, p, sha);
    var before := w.tables.floor.accounts[p];
    var shortage := required - before;
    RoundedUp(shortage);
    var units := (shortage + 99) / 100;
    if External(w, name).Some? && units <= w.ext[name] && units <= INT64_MAX / 100 {
      assert Pricing.FundingUnits(before, required, External(w, name)) == Ok(Some(units));
      DepositFinishes(w, cfg, p, name, units, sha);
    }
  }

  lemma RoundedUp(n: int)
    requires 0 < n
    ensures n / 100 + (if n % 100 == 0 then 0 else 1) == (n + 99) / 100 && n <= (n + 99) / 100 * 100 < n + 100
    ensures 0 < (n + 99) / 100
  {
  }

  /** One account of `sweepDirectBalances`. */
  ghost function Sweep(w: World, cfg: Config, p: Player, name: string, sha: string -> int): World
    requires Coherent(w, sha) && w.pc.Idle? && ConfigOk(cfg) && p in w.tables.floor.accounts
  {
    var units := w.tables.floor.accounts[p] / 100;
    if units <= 0 || name !in w.ext then w else Transferred(w, cfg, p, name, Withdraw, units, sha)
  }

  /**
   A sweep leaves only the cents below one unit on the account and puts all whole units outside,
   unless there is no room for them there; then they are in neither place.
   */
  lemma SweepFinishes(w: World, cfg: Config, p: Player, name: string, sha: string -> int)
    requires Coherent(w, sha) && w.pc.Idle? && ConfigOk(cfg) && p in w.tables.floor.accounts && p != "" && name != ""
    ensures var v, before := Sweep(w, cfg, p, name, sha), w.tables.floor.accounts[p];
            if before < 100 || name !in w.ext then v == w
            else
              && v.tables.floor.accounts == w.tables.floor.accounts[p := before % 100]
              && v.ext == if w.ext[name] + before / 100 <= INT64_MAX then w.ext[name := w.ext[name] + before / 100]
                 else w.ext
  {
    hide Coherent; hide Transferred;
    AccountFits(w, p, sha);
    var before := w.tables.floor.accounts[p];
    assert before == before / 100 * 100 + before % 100;
    if 100 <= before && name in w.ext { WithdrawalFinishes(w, cfg, p, name, before / 100, sha); }
  }
}
