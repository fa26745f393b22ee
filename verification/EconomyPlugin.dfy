/** `processEconomyTransfer` as it drives the service and the external balance, step by step. */
module EconomyPlugin {
  import opened Sums
  import opened Domain
  import opened Matching
  import opened Settlement
  import opened Exchange
  import opened Invariants
  import opened Runs
  import opened Saga
  import Service

  /** Steps left at most. */
  function Rank(pc: Place): nat
  {
    match pc
    case Deciding(_) => 6
    case Changing(_) => 5
    case Verifying(_) => 4
    case Marking(_, _) => 3
    case Completing(_) => 2
    case Failing(_) => 1
    case Blocking(_) => 1
    case Idle => 0
  }

  /** The world as it is verified: somebody else may have set the balance right after the change. */
  function Meddled(w: World, meddle: Option<int>, sha: string -> int): World
    requires Sane(w) && Priced(w.tables)
  {
    if w.pc.Verifying? && meddle.Some? then Advance(w, Foreign(w.tables.transfers[w.pc.i].name, meddle), sha) else w
  }

  lemma MeddledIsCoherent(w: World, meddle: Option<int>, sha: string -> int)
    requires Coherent(w, sha)
    ensures Coherent(Meddled(w, meddle, sha), sha) && Meddled(w, meddle, sha).pc == w.pc
  {
    hide Good; hide Sum; hide Total; hide Priced;
    if w.pc.Verifying? && meddle.Some? {
      ForeignKeepsCoherent(w, Foreign(w.tables.transfers[w.pc.i].name, meddle), sha);
    }
  }

  /** The next step of a transfer; the external change, if it comes to it, ends with `outcome`. */
  ghost function Next(w: World, outcome: Outcome, meddle: Option<int>, sha: string -> int): (v: World)
    requires Coherent(w, sha)
    ensures Coherent(v, sha) && (!w.pc.Idle? ==> Rank(v.pc) < Rank(w.pc))
  {
    MeddledIsCoherent(w, meddle, sha);
    TakeKeepsCoherent(Meddled(w, meddle, sha), outcome, sha);
    TakeLowersRank(Meddled(w, meddle, sha), outcome);
    Take(Meddled(w, meddle, sha), outcome)
  }

  lemma TakeLowersRank(w: World, outcome: Outcome)
    requires Sane(w)
    ensures !w.pc.Idle? ==> Rank(Take(w, outcome).pc) < Rank(w.pc)
  {
  }

  /** All remaining steps. */
  ghost function Settle(w: World, outcome: Outcome, meddle: Option<int>, sha: string -> int): (v: World)
    requires Coherent(w, sha)
    ensures Coherent(v, sha) && v.pc.Idle?
    decreases Rank(w.pc)
  {
    if w.pc.Idle? then w else Settle(Next(w, outcome, meddle, sha), outcome, meddle, sha)
  }

  lemma StartIsCoherent(w: World, i: Id, sha: string -> int)
    requires Coherent(w, sha) && w.pc.Idle?
    ensures Coherent(w.(pc := Begin(w, i)), sha)
  {
    hide Sum; hide Total; hide Good; hide Priced;
  }

  /** What one call of `processEconomyTransfer` does to the world. */
  ghost function Process(w: World, i: Id, outcome: Outcome, meddle: Option<int>, sha: string -> int): (v: World)
    requires Coherent(w, sha) && w.pc.Idle?
    ensures Coherent(v, sha) && v.pc.Idle?
  {
    StartIsCoherent(w, i, sha);
    Settle(w.(pc := Begin(w, i)), outcome, meddle, sha)
  }

  class Plugin {
    const service: Service.ExchangeService
    var ext: map<string, int>
    ghost var hits: seq<nat>
    ghost var outside: int

    ghost function Outside(pc: Place): World
      reads this, service
    {
      World(service.Rows(), ext, hits, outside, pc)
    }

    ghost predicate Valid()
      reads this, service
    {
      service.Valid() && Coherent(Outside(Idle), service.sha)
    }

    constructor (service: Service.ExchangeService, ext: map<string, int>, ghost hits: seq<nat>, ghost outside: int)
      requires service.Valid() && Coherent(World(service.Rows(), ext, hits, outside, Idle), service.sha)
      ensures Valid() && Outside(Idle) == World(service.Rows(), ext, hits, outside, Idle)
    {
      this.service, this.ext, this.hits, this.outside := service, ext, hits, outside;
    }

    /** `UmoneyGateway::change`: it may throw before the balance moved or after. */
    method ChangeBalance(name: string, delta: int, outcome: Outcome, ghost i: Id) returns (threw: bool)
      requires i < |hits|
      modifies this
      ensures if outcome.ThrowsBefore? || name !in old(ext) then threw && ext == old(ext) && hits == old(hits)
              else threw == outcome.ThrowsAfter? && ext == old(ext)[name := old(ext)[name] + delta]
                   && hits == old(hits)[i := old(hits)[i] + 1]
      ensures outside == old(outside)
    {
      if outcome.ThrowsBefore? || name !in ext { return true; }
      ext := ext[name := ext[name] + delta];
      hits := hits[i := hits[i] + 1];
      threw := outcome.ThrowsAfter?;
    }

    /** The second read of the balance, after whatever another plugin did to it in between. */
    method Reload(name: string, meddle: Option<int>) returns (balance: Option<int>)
      modifies this
      ensures hits == old(hits) && balance == (if name in ext then Some(ext[name]) else None)
      ensures if meddle.None? then ext == old(ext) && outside == old(outside)
              else ext == old(ext)[name := meddle.value]
                   && outside == old(outside) + meddle.value - (if name in old(ext) then old(ext)[name] else 0)
    {
      if meddle.Some? {
        outside := outside + meddle.value - (if name in ext then ext[name] else 0);
        ext := ext[name := meddle.value];
      }
      balance := if name in ext then Some(ext[name]) else None;
    }

    /** The external change and its check; `None` when it threw or was refused. */
    method Mutate(i: Id, outcome: Outcome, meddle: Option<int>) returns (applied: Option<int>)
      requires service.Valid() && i < |service.transfers| && service.transfers[i].before.Some?
      requires service.transfers[i].name in ext && Coherent(Outside(Changing(i)), service.sha)
      modifies this, service
      ensures service.Valid() && i < |service.transfers|
      ensures var all := Settle(old(Outside(Changing(i))), outcome, meddle, service.sha);
              match applied
              case None => Outside(Idle) == all
              case Some(b) => Coherent(Outside(Marking(i, b)), service.sha)
                              && Settle(Outside(Marking(i, b)), outcome, meddle, service.sha) == all
    {
      hide Good; hide Priced; hide Coherent; hide Service.ExchangeService.Valid; hide Settle; hide Sane;
      hide BlockTransfer;
      hide Next; hide Take;
      ghost var w := Outside(Changing(i));
      SettleNext(w, outcome, meddle, service.sha);
      NextIs(w, outcome, meddle, service.sha);
      var x := service.transfers[i];
      var threw := ChangeBalance(x.name, Delta(x.direction, x.units), outcome, i);
      w := Next(w, outcome, meddle, service.sha);
      SettleNext(w, outcome, meddle, service.sha);
      NextIs(w, outcome, meddle, service.sha);
      if threw { return None; }
      var reloaded := Reload(x.name, meddle);
      w := Next(w, outcome, meddle, service.sha);
      SettleNext(w, outcome, meddle, service.sha);
      NextIs(w, outcome, meddle, service.sha);
      if reloaded.None? { return None; }
      if !Decide(x.direction, x.units, x.before.value, reloaded.value).AlreadyApplied? {
        var _ := service.BlockEconomyTransfer(i);
        return None;
      }
      applied := reloaded;
    }

    /** Records the external change and credits a deposit. */
    method Finish(i: Id, applied: int, ghost outcome: Outcome, ghost meddle: Option<int>) returns (done: bool)
      requires service.Valid() && i < |service.transfers| && Coherent(Outside(Marking(i, applied)), service.sha)
      modifies this, service
      ensures service.Valid() && i < |service.transfers|
      ensures Outside(Idle) == Settle(old(Outside(Marking(i, applied))), outcome, meddle, service.sha)
      ensures done ==> service.transfers[i].status.TransferCompleted?
    {
      hide Good; hide Priced; hide Coherent; hide Service.ExchangeService.Valid; hide Settle; hide Sane;
      hide MarkExternalApplied; hide CompleteTransfer;
      ghost var w := Outside(Marking(i, applied));
      SettleNext(w, outcome, meddle, service.sha);
      var _ := service.MarkEconomyTransferExternalApplied(i, applied);
      w := Next(w, outcome, meddle, service.sha);
      SettleNext(w, outcome, meddle, service.sha);
      done := Complete(i, outcome, meddle);
    }

    method Complete(i: Id, ghost outcome: Outcome, ghost meddle: Option<int>) returns (done: bool)
      requires service.Valid() && i < |service.transfers| && Coherent(Outside(Completing(i)), service.sha)
      modifies this, service
      ensures service.Valid() && i < |service.transfers|
      ensures Outside(Idle) == Settle(old(Outside(Completing(i))), outcome, meddle, service.sha)
      ensures done ==> service.transfers[i].status.TransferCompleted?
    {
      hide Good; hide Priced; hide Coherent; hide Service.ExchangeService.Valid; hide Settle; hide Sane;
      hide CompleteTransfer;
      SettleNext(Outside(Completing(i)), outcome, meddle, service.sha);
      CompletedOnSuccess(service.Rows(), i);
      var r := service.CompleteEconomyTransfer(i);
      done := r.Ok?;
    }

    method ProcessEconomyTransfer(i: Id, outcome: Outcome, meddle: Option<int>) returns (done: bool)
      requires Valid() && i < |service.transfers|
      modifies this, service
      ensures Valid() && Outside(Idle) == Process(old(Outside(Idle)), i, outcome, meddle, service.sha)
      ensures i < |service.transfers| && (done ==> service.transfers[i].status.TransferCompleted?)
    {
      hide Good; hide Priced; hide Coherent; hide Service.ExchangeService.Valid; hide Settle; hide Sane;
      hide FailTransfer; hide BlockTransfer; hide Next; hide Take; hide Meddled; hide Rank;
      ghost var w := Outside(Begin(Outside(Idle), i));
      StartIsCoherent(Outside(Idle), i, service.sha);
      assert Process(Outside(Idle), i, outcome, meddle, service.sha) == Settle(w, outcome, meddle, service.sha);
      SettleNext(w, outcome, meddle, service.sha);
      NextIs(w, outcome, meddle, service.sha);
      var x := service.transfers[i];
      if x.status.TransferCompleted? { return true; }
      if x.status.ExternalApplied? {
        done := Complete(i, outcome, meddle);
        return;
      }
      if !x.status.TransferPrepared? { return false; }
      if x.before.None? {
        var _ := service.BlockEconomyTransfer(i);
        return false;
      }
      if x.name !in ext { return false; }
      var decision := Decide(x.direction, x.units, x.before.value, ext[x.name]);
      w := Next(w, outcome, meddle, service.sha);
      SettleNext(w, outcome, meddle, service.sha);
      NextIs(w, outcome, meddle, service.sha);
      match decision {
        case Insufficient =>
          var _ := service.FailEconomyTransfer(i);
          done := false;
        case Conflict =>
          var _ := service.BlockEconomyTransfer(i);
          done := false;
        case AlreadyApplied =>
          done := Finish(i, ext[x.name], outcome, meddle);
        case Apply =>
          var applied := Mutate(i, outcome, meddle);
          if applied.None? { return false; }
          done := Finish(i, applied.value, outcome, meddle);
      }
    }
  }

  /** One step of the rest of a transfer. */
  lemma SettleNext(w: World, outcome: Outcome, meddle: Option<int>, sha: string -> int)
    requires Coherent(w, sha)
    ensures Sane(w) && |w.hits| == |w.tables.transfers| && (w.pc.Idle? ==> Settle(w, outcome, meddle, sha) == w)
    ensures !w.pc.Idle? ==>
              var v := Next(w, outcome, meddle, sha);
              && |v.hits| == |v.tables.transfers| && Settle(w, outcome, meddle, sha) == Settle(v, outcome, meddle, sha)
              && (v.pc.Idle? ==> Settle(w, outcome, meddle, sha) == v)
  {
    hide Good; hide Priced; hide Sum; hide Total; hide Take; hide Next;
  }

  /** The next step, spelled out for the places up to the check after the change. */
  lemma NextIs(w: World, outcome: Outcome, meddle: Option<int>, sha: string -> int)
    requires Coherent(w, sha)
    ensures Sane(w)
    ensures var v := Next(w, outcome, meddle, sha);
            match w.pc
            case Deciding(i) => v == w.(pc := Judge(w, i))
            case Changing(i) => v == Change(w, i, outcome)
            case Verifying(i) =>
              var m := Meddled(w, meddle, sha);
              Sane(m) && m.pc == w.pc && v == m.(pc := Verify(m, i))
            case Failing(i) => v == w.(tables := After(w.tables, FailTransfer(w.tables, i)), pc := Idle)
            case Blocking(i) => v == w.(tables := After(w.tables, BlockTransfer(w.tables, i)), pc := Idle)
            case _ => true
  {
    hide Good; hide Priced; hide Sum; hide Total; hide Judge; hide Change; hide FailTransfer; hide BlockTransfer;
    MeddledIsCoherent(w, meddle, sha);
  }

  lemma CompletedOnSuccess(t: Tables, i: Id)
    ensures match CompleteTransfer(t, i)
            case Ok(u) => i < |u.transfers| && u.transfers[i].status.TransferCompleted?
            case Err(_) => true
  {
  }
}
