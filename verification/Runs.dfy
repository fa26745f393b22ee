/** Every run of the service: what holds in every database it can reach. */
module Runs {
  import opened Sums
  import opened Domain
  import opened Matching
  import opened Settlement
  import opened MatchingLoops
  import opened Placement
  import opened Growth
  import opened Exchange
  import opened Invariants
  import opened StepsMoney
  import opened StepsTrade

  /** One call of a public operation, under the configuration of the process that makes it. */
  datatype Call = Call(cfg: Config, action: Action)

  predicate CallsOk(calls: seq<Call>)
  {
    forall i :: 0 <= i < |calls| ==> ConfigOk(calls[i].cfg)
  }

  lemma ValidatedIsValid(cfg: Config, req: Request)
    requires ConfigOk(cfg) && Validate(cfg, req).None?
    ensures ValidOrder(req)
  {
  }

  lemma OpenedKeepsGood(t: Tables, cfg: Config, a: Action, sha: string -> int)
    requires Good(t, sha) && ConfigOk(cfg)
    ensures var u := Opened(t, cfg, a);
            Good(u, sha) && Priced(u) && match Opens(cfg, a)
                                         case Some(p) => p != "" ==> p in u.floor.accounts
                                         case None => true
  {
    hide Good; hide EnsureAccount; hide Priced;
    if Opens(cfg, a).Some? { EnsureAccountKeepsGood(t, cfg, Opens(cfg, a).value, sha); }
    GoodIsPriced(Opened(t, cfg, a), sha);
  }

  lemma LaterKeepsGood(t: Tables, cfg: Config, sha: string -> int, a: Action)
    requires Good(t, sha) && ConfigOk(cfg) && Priced(t)
    requires match Opens(cfg, a)
             case Some(p) => p != "" ==> p in t.floor.accounts
             case None => true
    requires !a.DoEnsureAccount? && !a.DoAddBalance? && !a.DoActivate? && !a.DoClose? && !a.DoRetire? && !a.DoPlace?
    requires !a.DoCancel? && !a.DoPrepareClaim? && !a.DoCompleteClaim? && !a.DoCleanClaim?
    ensures Good(Main(t, cfg, sha, a), sha)
  {
    hide Good; hide Sum; hide Total; hide PricedRows;
    hide AdjustBalance; hide Activate; hide Close; hide Retire; hide Place; hide CancelOrder; hide PrepareClaim;
    hide CompleteClaim; hide CleanClaim; hide PrepareEscrow; hide MarkTagged; hide ExecuteEscrow; hide CancelEscrow;
    hide CleanEscrow; hide PrepareTransfer; hide MarkExternalApplied; hide CompleteTransfer; hide FailTransfer;
    hide BlockTransfer; hide Upsert; hide CancelListing; hide Purchase; hide MarkDropped; hide CompletePickup;
    match a
    case DoPrepareEscrow(req) =>
      if Validate(cfg, req).None? && req.side.Sell? {
        ValidatedIsValid(cfg, req);
        PrepareEscrowKeepsGood(t, req, sha);
      }
    case DoMarkTagged(e, tagged, receipts) => MarkTaggedKeepsGood(t, e, tagged, receipts, sha);
    case DoExecuteEscrow(e) => ExecuteEscrowKeepsGood(t, e, sha);
    case DoCancelEscrow(e) => CancelEscrowKeepsGood(t, e, sha);
    case DoCleanEscrow(e) => CleanEscrowKeepsGood(t, e, sha);
    case DoPrepareTransfer(p, name, direction, cents, units, before) =>
      if TransferRefused(p, name, cents, units).None? {
        PrepareTransferKeepsGood(t, p, name, direction, cents, units, before, sha);
      }
    case DoMarkExternalApplied(i, balance) => MarkExternalAppliedKeepsGood(t, i, balance, sha);
    case DoCompleteTransfer(i) => CompleteTransferKeepsGood(t, i, sha);
    case DoFailTransfer(i) => FailTransferKeepsGood(t, i, sha);
    case DoBlockTransfer(i) => BlockTransferKeepsGood(t, i, sha);
    case DoUpsert(l, administrator) => if !ListingIncomplete(l) { UpsertKeepsGood(t, l, administrator, sha); }
    case DoCancelListing(id, p, administrator) => CancelListingKeepsGood(t, id, p, administrator, sha);
    case DoPurchase(id, buyer, expected) => PurchaseKeepsGood(t, id, buyer, expected, sha);
    case DoMarkDropped(id) => MarkDroppedKeepsGood(t, id, sha);
    case DoCompletePickup(id) => CompletePickupKeepsGood(t, id, sha);
  }

  /** The main transaction of every operation keeps the database good. */
  lemma MainKeepsGood(t: Tables, cfg: Config, sha: string -> int, a: Action)
    requires Good(t, sha) && ConfigOk(cfg) && Priced(t)
    requires match Opens(cfg, a)
             case Some(p) => p != "" ==> p in t.floor.accounts
             case None => true
    ensures Good(Main(t, cfg, sha, a), sha)
  {
    hide Good; hide Sum; hide Total; hide PricedRows;
    hide AdjustBalance; hide Activate; hide Close; hide Retire; hide Place; hide CancelOrder; hide PrepareClaim;
    hide CompleteClaim; hide CleanClaim; hide PrepareEscrow; hide MarkTagged; hide ExecuteEscrow; hide CancelEscrow;
    hide CleanEscrow; hide PrepareTransfer; hide MarkExternalApplied; hide CompleteTransfer; hide FailTransfer;
    hide BlockTransfer; hide Upsert; hide CancelListing; hide Purchase; hide MarkDropped; hide CompletePickup;
    match a
    case DoEnsureAccount(_) =>
    case DoAddBalance(p, delta) => AdjustBalanceKeepsGood(t, p, delta, sha);
    case DoActivate(target, kind, item) => ActivateKeepsGood(t, sha, target, kind, item);
    case DoClose(m) => CloseKeepsGood(t, m, sha);
    case DoRetire(m) => RetireKeepsGood(t, m, sha);
    case DoPlace(req) =>
      if Validate(cfg, req).None? {
        ValidatedIsValid(cfg, req);
        PlaceKeepsGood(t, req, sha);
      }
    case DoCancel(id, p, administrator) => CancelOrderKeepsGood(t, id, p, administrator, sha);
    case DoPrepareClaim(d, p, quantity) => PrepareClaimKeepsGood(t, d, p, quantity, sha);
    case DoCompleteClaim(c, quantity) => CompleteClaimKeepsGood(t, c, quantity, sha);
    case DoCleanClaim(c) => CleanClaimKeepsGood(t, c, sha);
    case _ => LaterKeepsGood(t, cfg, sha, a);
  }

  lemma StepKeepsGood(t: Tables, cfg: Config, sha: string -> int, a: Action)
    requires Good(t, sha) && ConfigOk(cfg) && Priced(t)
    ensures Good(Step(t, cfg, sha, a), sha)
  {
    hide Good; hide Main;
    OpenedKeepsGood(t, cfg, a, sha);
    MainKeepsGood(Opened(t, cfg, a), cfg, sha, a);
  }

  /** The database after a run of calls, from an empty one. */
  ghost function Run(calls: seq<Call>, sha: string -> int): (t: Tables)
    requires CallsOk(calls)
    ensures Good(t, sha) && Priced(t)
  {
    if calls == [] then
      EmptyIsGood(sha);
      GoodIsPriced(Empty(), sha);
      Empty()
    else
      var n := |calls| - 1;
      var before := Run(calls[..n], sha);
      StepKeepsGood(before, calls[n].cfg, sha, calls[n].action);
      GoodIsPriced(Step(before, calls[n].cfg, sha, calls[n].action), sha);
      Step(before, calls[n].cfg, sha, calls[n].action)
  }
}
