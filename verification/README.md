# Item exchange: a verified model

This project models the domain layer of a Minecraft item exchange and proves what it promises:
a limit-order matching engine over SQL rows, money and item escrow, the transfer saga between the
exchange and UMoney, the inventory side of sells and deliveries, the private NBT codec and the
reader of LevelDB's log files. `dafny verify dfyconfig.toml` checks everything.

The database is one value, `Tables`, with one sequence or map per SQL table; a row's id is its
index. Each transaction is a function from tables to `Ok(tables)` or `Err(error)`, where `Err` is
a rollback. The same operations exist a second time as they run: `Service.ExchangeService` has one
field per table and updates rows in place, with the loops of the original, and every method is
proved to leave exactly the rows its function says, which is one `Step` of a run. What a run of operations guarantees is proved
about the functions; it holds for the class because the two agree.

How the files build on each other:

- `Sums`, `Domain`, `Bytes`, `Decimal`: totals over tables, records, little-endian bytes, decimal text.
- `Matching`: selection, matching loops, placing, canceling and the funding estimate, as functions.
- `Settlement`, `MatchingLoops`, `Placement`, `Cancellation`: the invariant `Sound` and why every trading step keeps it.
- `Priority`, `Greedy`, `Proceeds`: whom an order trades with, that neither a market buy nor a sell could do better, and what a sell is paid.
- `Booking`, `Earnings`, `Estimates`: every row a committed order writes, what each seller earns, and that the funding estimate is exact.
- `Exchange`: all tables and all operations; `Action`, `Step`.
- `Growth`, `Invariants`, `StepsMoney`, `StepsTrade`, `Runs`: the invariant `Good` of the whole database, kept by every step.
- `Withdrawals`, `Records`: what each other call writes, said of the rows alone, and exactly when it is refused.
- `Solvency`: exactly when an operation is refused while all money inside fits 64 bits.
- `History`, `Guarantees`: what no later step undoes, and the theorems about every run.
- `Service`: the in-place service. `OrderBooks`, `OrderBookCases`: the two views of a book, and one that cannot be shown.
- `Saga`, `SagaCases`, `EconomyPlugin`, `Funding`: transfers as small steps with crashes, foreign writers and throwing calls.
- `Inventory`, `SellEscrow`, `EscrowStacks`, `DeliveryClaims`: slots and database changing in separate steps.
- `EscrowRecovery`, `EscrowLoop`, `EscrowCases`: where sells and their reconciliation end, one by one and in the loop.
- `ClaimLoop`, `Joint`: recovering all claims, and sells and deliveries together in one inventory.
- `Nbt`, `NbtRoundTrip`, `NbtCanonical`, `NbtStreams`; `Varint`, `LevelDb`, `LevelDbProofs`, `LevelDbReader`: the binary formats.
- `Formats`: the formats themselves by their numbers, so that writer and reader cannot both be wrong in the same way.
- `Pricing`: price grid, price text, funding arithmetic.

## What turned out not to hold

- A transfer is judged by balances only. `Saga.HonestIffNeverFooled` gives the exact condition: a run
  stays honest if and only if it never judges a transfer while the player's UMoney balance is away from
  what the transfer's own baseline and change explain by exactly the transfer's amount (forward when it
  was not applied yet, backward when it was). Nothing in `prepareEconomyTransfer` prevents a second
  PREPARED transfer of the same player, whose change is such a foreign move for the first:
  `SagaCases.OneChangeFoolsTheOther` says so for any two of the same direction and amount, and
  `SagaCases.TwoPendingDepositsMint` is a run in which it mints money, contrary to
  `docs/architecture.md`, line 32, which says a deposit is credited only once its debit is known to be
  applied. The code is followed. While no one else, nor another transfer, changes a player's UMoney
  balance during a PREPARED transfer, `Saga.UndisturbedRunsAreHonest` and
  `Saga.UndisturbedWealthIsConserved` hold for all runs.
- A sell escrow does not always end CANCELED or as one order. `EscrowRecovery.ReconciliationFinishes`
  gives the exact condition (`Solvency.Accepts`): a sell that is to go through becomes one order if its
  market is active and the seller's balance can hold what the waiting bids pay for it, and otherwise stays
  TAGGED behind its receipts. `EscrowCases.RefusedSellStaysTagged` is a run in which the market is closed
  between a crash and the reconciliation; `EscrowCases.FullPurseStaysTagged` is one in which nothing
  happens to the market and the balance is full. Such an escrow also keeps those behind it waiting
  (`EscrowLoop.LoopEnds`).
- The NBT reader accepts inputs the writer never produces. `NbtCanonical.EncodingIffAscending` gives the
  exact condition: an accepted input is what the writer writes for the decoded value if and only if it is
  not empty and every compound in it lists its keys in strictly ascending order.
  `NbtRoundTrip.RepeatedKeysAreAccepted` and `NbtCanonical.EmptyInputIsNoEncoding` show the two other kinds.
- The single-book view fails where the batched view clamps: at any depth, exactly when one of the levels
  shown holds more than 32 bits' worth of units (`OrderBooks.BookFailsOnLargeTotals`).
  `OrderBookCases.LargeBookIsReachable` is a run to such a book.

## Model

| member | source | states |
|---|---|---|
| Matching.Candidates | src/exchange_service.cpp:537-545 | the query returns resting orders of the other side in the same book, within the limit and not the player's own |
| Placement.SelectIsPriceTime | src/exchange_service.cpp:539-545 | it returns every such order, best price first and oldest first at one price |
| Placement.PriceTimeIsUnique | src/exchange_service.cpp:539-545 | there is only one such ordering, so the result does not depend on how it is computed |
| MatchingLoops.BuyLoopMatches | src/exchange_service.cpp:547-588 | the buy loop keeps all invariants, counts units and cents right, and can fail only by a balance overflow; neither a debit nor a product fails inside it |
| MatchingLoops.SellLoopMatches | src/exchange_service.cpp:632-664 | the same for the sell loop; in particular the reserve of a bid never runs short |
| Placement.PlaceBuyExecutes | src/exchange_service.cpp:513-603 | a buy is refused for the missing market, the missing account, a balance below its reserve or an overflow, and otherwise commits sound tables, conserved money, positions and items, and a report equal to what the trades add up to |
| Placement.PlaceSellExecutes | src/exchange_service.cpp:612-679 | the same for a sell, whose unsold market remainder comes back as a delivery |
| Booking.BuyIsBooked | src/exchange_service.cpp:513-603 | a committed buy writes its reserve, for each trade one delivery to the buyer and the ledger entries of that trade (payment or refund of the difference, and proceeds), the traded units and cents off the rows it traded with, its own row as reported, and nothing else |
| Booking.SellIsBooked | src/exchange_service.cpp:612-679 | a committed sell writes for each trade one delivery to the bid's owner and the seller's proceeds, takes units and reserve off the bids, gives a market sell's rest back as one delivery, and writes nothing else |
| Cancellation.ReleaseWorks | src/exchange_service.cpp:704-710 | canceling refunds exactly the reserve or returns exactly the rest, to the owner only |
| Cancellation.RetireEmptiesMarket | src/exchange_service.cpp:342-359 | the settlement loop cancels every resting order placed through that market, changes no other order, keeps all invariants and holdings, and can fail only by a balance overflow |
| Withdrawals.CancelWithdraws | src/exchange_service.cpp:681-712 | a cancellation is accepted only for the owner of a resting order or an administrator; it pays the owner the bid's price for each unit left, with one ledger entry, or delivers the ask's units left, takes the order out of the book, and writes nothing else; otherwise the error names the reason |
| Withdrawals.RetireWithdraws | src/exchange_service.cpp:323-369 | a retirement cancels exactly the orders that rest in the market, pays every owner the sum of that owner's bids and delivers the asks' units left as MARKET_CLOSED, with one ledger entry or delivery each; the market ends inactive, unbound and not reopenable; it is refused exactly for a missing market or an owner's balance that cannot hold the sum |
| Withdrawals.ClosePauses | src/exchange_service.cpp:300-321 | closing pauses and unbinds an active market, changes nothing of an inactive one and settles no order; it is refused exactly for a missing market |
| Priority.BuyHasPriority | src/exchange_service.cpp:547-588 | the fills of a buy are with the first orders of the price-time queue, in order, at their prices, and only the last may be partial; the next was left because the order was done |
| Priority.SellHasPriority | src/exchange_service.cpp:632-664 | the same for a sell |
| Priority.QueueMembers | src/exchange_service.cpp:537-545 | in that queue are exactly the open or partly filled limit orders of other players on the other side of the book, within the limit if there is one |
| Greedy.MarketBuyIsOptimal | src/exchange_service.cpp:555-573 | no other choice of asks within quantity and balance fills more units, or as many for less |
| Greedy.MarketFundingSuffices | src/exchange_service.cpp:1320-1342 | with at least the estimate as balance a market buy costs exactly the estimate and fills all that is on offer, up to its quantity |
| Greedy.LimitFundingSuffices | src/exchange_service.cpp:1316-1318 | with the estimate as balance a limit buy is never refused for lack of money and costs no more than it |
| Estimates.EstimateIsRefusedForCause | src/exchange_service.cpp:1306-1342 | there is no estimate exactly for a sell, a missing or inactive market, a limit value or a cheapest market cost beyond 64 bits |
| Estimates.LimitEstimateIsExact | src/exchange_service.cpp:1316-1318 | whatever balance the buyer has, a limit buy is refused for lack of money exactly when the balance is below the estimate |
| Estimates.MarketEstimateIsExact | src/exchange_service.cpp:1320-1342 | a market buy fills all there is, up to its quantity, exactly when the balance is at least the estimate |
| Proceeds.SellIsPaid | src/exchange_service.cpp:612-679 | a sell at an active market is refused exactly when the seller's balance cannot hold what the waiting bids, best first, pay for its units, and a committed one is paid exactly that |
| Proceeds.SellIsOptimal | src/exchange_service.cpp:632-664 | no other choice of the waiting bids pays more for at most as many units |
| Earnings.BuyPaysSellers | src/exchange_service.cpp:513-603 | a buy its buyer can pay for, at an active market, is refused exactly when some seller's balance cannot hold what that seller would earn, and a committed one pays every seller exactly that |
| Exchange.FindResumable | src/exchange_service.cpp:262-264 | the market resumed is the newest closed generation of the target, kind and book |
| Exchange.Validate | src/exchange_service.cpp:1652-1665 | a request passes exactly with a player, a name, a positive quantity within the limit and, for a limit order, a positive price and a value that fits 64 bits |
| Runs.StepKeepsGood | src/exchange_service.cpp:168-1505 | every public operation keeps the whole database good, under any configuration and input |
| Runs.Run | src/exchange_service.cpp:168-1505 | every database reachable from an empty one by any calls is good |
| History.RunsMoveForward | src/exchange_service.cpp:168-1505 | rows are never lost; orders, claims, escrows, transfers, listings and markets only move forward in status; retired markets stay retired; trades and ledger only grow |
| Guarantees.NoBookIsCrossed | src/exchange_service.cpp:513-712 | in every reachable database a bid is below every ask of another player in the same book |
| Guarantees.OrdersAddUp | src/exchange_service.cpp:574-603 | original = remaining + traded for every limit order not canceled; reserved = price × remaining exactly for resting buys; an order rests exactly when it has units left |
| Guarantees.TradesAreFair | src/exchange_service.cpp:577-584 | every trade is between two players of one book, at the older order's price, within both limits |
| Guarantees.OrdersAreRefusedForCause | src/exchange_service.cpp:507-679 | on reachable tables an order is refused only for the listed reasons, never by an internal guard |
| Solvency.SolventPlace | src/exchange_service.cpp:507-679 | while balances and reserves together fit 64 bits, an order is refused exactly for an unknown or inactive market, a missing account, or a balance below its reserve |
| Solvency.SolventCancel | src/exchange_service.cpp:681-712 | then a cancellation is refused exactly for a missing order, another owner's, or one that does not rest |
| Solvency.SolventRetire | src/exchange_service.cpp:323-369 | then a retirement is refused exactly for a missing market |
| Solvency.SolventEscrow | src/exchange_service.cpp:954-1005 | then an escrow is refused exactly when it is missing, not tagged, canceled, or tagged for an inactive market |
| Solvency.TaggedEscrowRefused | src/exchange_service.cpp:983-1001 | a TAGGED escrow becomes an order exactly when its market is active and the owner's balance can hold what the bids pay; it is refused as inactive exactly when the market is, and never by an overflow while all money inside fits 64 bits |
| Solvency.SolventAccepts | src/exchange_service.cpp:983-1001 | then the sell of any escrow is taken exactly when its market is active |
| Solvency.SolventPurchase | src/exchange_service.cpp:1411-1461 | then a frame purchase does not overflow a balance |
| Guarantees.LedgersAddUp | src/exchange_service.cpp:1595-1640 | every player's ledger sums to a balance that is never negative and fits 64 bits |
| Guarantees.PositionsAddUp | src/exchange_service.cpp:547-664 | cash plus open reserves is what came in less net purchases, for every player |
| Guarantees.MoneyAddsUp | src/exchange_service.cpp:168-1461 | balances plus open reserves equal what was minted plus completed deposits less unfailed withdrawals |
| Guarantees.TradingConservesMoney | src/exchange_service.cpp:323-1461 | orders, cancellations, retirements, escrow sells and frame purchases leave the sum of balances and reserves unchanged |
| Guarantees.DeficitIsWhatWasMinted | src/exchange_service.cpp:1244-1257 | the backing deficit plus the deposits in EXTERNAL_APPLIED is what account openings and admin adjustments ever minted |
| Guarantees.UmoneyStartupNeverRefused | src/plugin.cpp:145-153 | a database used only with initial balance 0 and without addbalance never trips the startup refusal |
| Guarantees.ItemsAddUp | src/exchange_service.cpp:574-710 | per book, units on offer plus units delivered equal units brought in by sell orders and escrow excess |
| Guarantees.PlayersItemsAddUp | src/exchange_service.cpp:574-710 | every player is delivered exactly the units bought, and units offered are on offer, sold or returned |
| Guarantees.DeliveriesAddUp | src/exchange_service.cpp:782-875 | reserved is the sum of prepared claims, claimed the sum of applied ones, and both fit in the delivery |
| Guarantees.CompletionHappensOnce | src/exchange_service.cpp:823-875 | the reservation guard never fires, and completing again changes nothing or is refused |
| Guarantees.SecondExecuteRepeats | src/exchange_service.cpp:954-1005 | executing an escrow twice in a row returns the same result and changes nothing |
| Guarantees.TransfersPostOnce | src/exchange_service.cpp:1062-1235 | the ledger entries of a transfer sum to what its status says it did |
| Guarantees.ListingsAreBound | src/exchange_service.cpp:1259-1304 | a frame is bound to a listing exactly while it is active, paid or dropped, and to one listing only |
| Guarantees.ListingsSellOnce | src/exchange_service.cpp:1411-1461 | a listing has exactly one matching debit and credit when it was paid for and none otherwise |
| Guarantees.MarketsAreBound | src/exchange_service.cpp:230-369 | a market is active exactly when its target is bound to it; one active market per target; none both active and reopenable |
| Guarantees.MarketsShareBooksByItem | src/exchange_service.cpp:244-259 | two markets share a book exactly when type, data and NBT of their items agree |
| Guarantees.FingerprintIsInjective | src/exchange_service.cpp:246-248 | the length-prefixed text of an item's key determines the item |
| Formats.KeyTextLayout | src/exchange_service.cpp:246-248 | the text is length and type, data, length and NBT with colons between, on an example |
| Guarantees.CollisionsAreReal | src/exchange_service.cpp:250-259 | the collision error is raised exactly when another item's different text has the same hash |
| Guarantees.ReopeningResumes | src/exchange_service.cpp:261-278 | activating a live target is refused, and closing a market and activating its item again restores the database |
| Service.ExchangeService.CreditAccount | src/exchange_service.cpp:1595-1609 | the credit of the specification, on the rows in place; an overflow or missing account changes nothing |
| Service.ExchangeService.DebitAccount | src/exchange_service.cpp:1611-1626 | the debit of the specification, on the rows in place |
| Service.ExchangeService.MatchBuy | src/exchange_service.cpp:547-588 | the loop over row snapshots with a running balance computes the specified matching; the running balance is the stored one and no snapshot is stale |
| Service.ExchangeService.MatchSell | src/exchange_service.cpp:632-664 | the same for the sell loop |
| Service.ExchangeService.PlaceOrder | src/exchange_service.cpp:507-610 | validation, account opening and the order as one transaction; an error leaves only the account opening |
| Service.ExchangeService.AddBalance | src/exchange_service.cpp:211-228 | opens the account, then adjusts it within 0 and 64 bits, or refuses |
| Service.ExchangeService.CancelOrder | src/exchange_service.cpp:681-712 | on the rows in place, one step of a run: commits the cancellation that `Withdrawals.CancelWithdraws` describes, or nothing |
| Service.ExchangeService.BuyFundingRequired | src/exchange_service.cpp:1306-1342 | the loop over the asks, stopping at the quantity, computes the estimate that `Estimates` proves exact, or its error |
| Service.ExchangeService.ActivateMarket | src/exchange_service.cpp:230-298 | finds or adds the book, resumes or creates the market, binds the target; a collision rolls everything back |
| Service.ExchangeService.CloseMarket | src/exchange_service.cpp:300-321 | pauses and unbinds the market and keeps its orders |
| Service.ExchangeService.RetireMarket | src/exchange_service.cpp:323-369 | settles all its resting orders in a loop and closes it for good, as `Withdrawals.RetireWithdraws` describes, or rolls back |
| Service.ExchangeService.PrepareDeliveryClaim | src/exchange_service.cpp:782-821 | reserves at most the unreserved rest for the owner |
| Service.ExchangeService.CompleteDeliveryClaim | src/exchange_service.cpp:823-875 | books what was delivered, frees the reservation, and never fails its invariant guard |
| Service.ExchangeService.PrepareSellEscrow | src/exchange_service.cpp:886-921 | a validated sell at an active market becomes a PREPARED escrow with the terms that `Records.EscrowKeepsRequest` ties to the request |
| Service.ExchangeService.MarkSellEscrowTagged | src/exchange_service.cpp:923-952 | PREPARED becomes TAGGED with at least the requested units; the same call again is accepted |
| Service.ExchangeService.ExecuteSellEscrow | src/exchange_service.cpp:954-1005 | TAGGED becomes ORDERED with its order and its excess delivered, atomically; ORDERED reports its order |
| Service.ExchangeService.CancelSellEscrow | src/exchange_service.cpp:1007-1025 | only a PREPARED escrow is canceled; canceling again is accepted |
| Service.ExchangeService.PrepareEconomyTransfer | src/exchange_service.cpp:1062-1096 | a withdrawal reserves its cents in the same transaction or leaves no row |
| Service.ExchangeService.CompleteEconomyTransfer | src/exchange_service.cpp:1160-1193 | EXTERNAL_APPLIED becomes COMPLETED and a deposit is credited, once |
| Service.ExchangeService.FailEconomyTransfer | src/exchange_service.cpp:1195-1224 | PREPARED becomes FAILED and a withdrawal is refunded, once |
| Service.ExchangeService.UpsertFrameListing | src/exchange_service.cpp:1259-1304 | replaces an active listing of the frame or binds a new one |
| Service.ExchangeService.PurchaseFrameListing | src/exchange_service.cpp:1411-1461 | moves the price from buyer to seller and marks the listing paid, or changes nothing but the opened account |
| Records.AddBalanceAdds | src/exchange_service.cpp:168-228 | the balance, opened with the initial one if need be, moves by the amount if the result is between 0 and 64 bits and stays otherwise, with one ledger entry for each change |
| Records.ActivationOpens | src/exchange_service.cpp:230-298 | the target is bound to an active market with exactly these terms in the book of its item: the one market of that point and item that may trade again, or else a new one; no other market changes; it is refused exactly for missing data, a live target or a collision |
| Records.ClaimReserves | src/exchange_service.cpp:782-821 | the owner gets a claim on the units asked for, or on all that are left if those are fewer, and only that reservation grows; it is refused exactly for a missing or another player's delivery, or one with nothing left |
| Records.ClaimCompletes | src/exchange_service.cpp:823-875 | books the units handed out, frees all the claim reserved and ends the claim; again is accepted exactly for the same number and changes nothing |
| Records.EscrowKeepsRequest | src/exchange_service.cpp:886-921 | the escrow of a validated sell carries the request's market, player, kind, quantity and, for a limit sell, price, so that executing it places the order asked for |
| Records.EscrowIsTagged | src/exchange_service.cpp:923-952 | tagging writes units and stacks once, for a prepared escrow and at least the units asked for, and each refusal has its cause |
| Records.EscrowIsSold | src/exchange_service.cpp:954-1005 | executing a tagged escrow writes all that its sell writes and one delivery of the excess; executing an ordered one writes nothing and reports what the order has sold by now |
| Records.TransferStarts | src/exchange_service.cpp:1062-1096 | a transfer row has the terms given; a withdrawal takes its cents with one ledger entry and is refused exactly when the balance is less |
| Records.TransferNeeds | src/exchange_service.cpp:1069-1088 | from outside, a transfer is started exactly for a named player, positive amounts and a covered withdrawal, counting the balance a first call opens |
| Records.TransferEnds | src/exchange_service.cpp:1160-1193 | completing credits an applied deposit its cents, with one ledger entry, and nothing else; it is refused exactly before the change was applied, after a failure or block, or when the balance cannot hold the cents |
| Records.TransferIsGivenBack | src/exchange_service.cpp:1195-1224 | failing gives a prepared withdrawal its cents back, with one ledger entry, and nothing else |
| Records.ListingIsReplaced | src/exchange_service.cpp:1268-1303 | the new listing has the target, seller, price and item given and takes the frame; the one it replaces was for sale and the seller's own, or an administrator replaces it, and is canceled; another seller's or a settling one is refused |
| Records.ListingNeeds | src/exchange_service.cpp:1259-1284 | from outside, a frame is listed exactly when target, seller, price and item are given and it has no listing, or one that may be replaced |
| Records.ListingIsCanceled | src/exchange_service.cpp:1383-1409 | the seller or an administrator cancels a listing that is for sale and frees its frame; every refusal has its cause |
| Records.ListingIsSold | src/exchange_service.cpp:1422-1460 | the buyer pays the listing's price and the seller gets it, with two entries that name the listing, exactly when it is for sale at the price shown, to another player, and both balances allow it |
| Records.PurchaseNeeds | src/exchange_service.cpp:1411-1461 | the same from outside, counting the balance a first call opens |
| Records.ListingIsHandedOver | src/exchange_service.cpp:1463-1505 | a paid listing is dropped and picked up, or picked up at once, and its frame is free only after the pickup |
| OrderBooks.BookShowsRestingOrders | src/exchange_service.cpp:401-438 | each level shows exactly the units resting at its price, best price first |
| OrderBooks.TopAgreesWithBook | src/exchange_service.cpp:401-505 | where the single book can be shown at depth 1, the batched top equals it on bids, asks and last price |
| OrderBooks.BookIsShown | src/exchange_service.cpp:401-438 | a book that is shown has on each side exactly the best prices up to the depth, best first, each with all units resting at it, and as last price that of the newest trade in the book, or none exactly when there is no trade |
| OrderBooks.TopIsShown | src/exchange_service.cpp:455-492 | the batched view has on each side the best price with all units resting at it, cut off at 32 bits, or nothing exactly when nothing rests there, and the same last price |
| OrderBooks.BookFailsOnLargeTotals | src/exchange_service.cpp:401-438 | for every depth from 1 to 50 the single book fails exactly when one of the first levels of a side totals more than 32 bits |
| OrderBookCases.LargeBookIsReachable | src/exchange_service.cpp:411-428 | a run of four calls reaches a book that cannot be shown at any depth |
| OrderBooks.TopOfBooks | src/exchange_service.cpp:440-505 | the batch answers every id asked for, with its book's top, or empty for an unknown market |
| Saga.HonestIffNeverFooled | include/endstone_exchange/umoney_gateway.hpp:27-55 | over any run with crashes and foreign writes, statuses agree with what happened outside exactly as long as no transfer is judged while its player's balance was moved by just its amount |
| Saga.UndisturbedRunsAreHonest | src/plugin.cpp:410-497 | while nobody, nor another transfer, changes the balance a PREPARED transfer is judged by, every change happens at most once, COMPLETED means exactly once and FAILED never |
| Saga.WealthIsConserved | src/plugin.cpp:410-497 | over closed runs that are never fooled 100 × UMoney + balances + reserves + money in transit never changes, whatever throws or crashes |
| Saga.UndisturbedWealthIsConserved | src/plugin.cpp:410-497 | the same over every closed run in which nobody, nor another transfer, changes the balance a PREPARED transfer is judged by |
| Saga.WealthAddsUp | src/plugin.cpp:410-497 | in any honest world that total is what was minted and what others put outside |
| SagaCases.RecoveryFinishes | src/plugin.cpp:410-497 | recovery from any interruption applies the transfer exactly once and completes it, unless the credit would overflow |
| SagaCases.RecoveryRefuses | src/plugin.cpp:425-458 | a PREPARED transfer without a baseline, or whose baseline leaves no room, ends FAILED or BLOCKED with nothing changed outside |
| SagaCases.OneChangeFoolsTheOther | src/exchange_service.cpp:1062-1096 | of any two PREPARED transfers of one player with the same direction and amount, the change of one makes the other be judged applied although it was not |
| SagaCases.TwoPendingDepositsMint | src/exchange_service.cpp:1062-1096 | a concrete run with two PREPARED deposits of one player that credits both although only one was taken |
| Funding.DepositFinishes | src/plugin.cpp:537-542 | a deposit prepared from the balance just read takes its units outside and credits their cents, or, if the account cannot hold them, waits as EXTERNAL_APPLIED |
| Funding.WithdrawalFinishes | src/plugin.cpp:566-569 | a withdrawal so prepared takes its cents at once and is completed if there is room outside, and BLOCKED otherwise |
| Funding.FundFinishes | src/plugin.cpp:520-547 | funding leaves the player with what is required and less than one unit more, changes nothing when UMoney lacks it, and credits nothing when the whole units would overflow the balance |
| Funding.SweepFinishes | src/plugin.cpp:549-575 | a sweep leaves only the cents below one unit on the account and puts all whole units outside, unless there is no room there |
| EconomyPlugin.Plugin.ProcessEconomyTransfer | src/plugin.cpp:410-497 | the procedure takes exactly the modelled steps, for every way the external call can end and any balance found on reload |
| Inventory.SplitStacks | src/inventory_escrow.cpp:71-88 | full stacks first, all tagged with the claim, as many units as asked for |
| Inventory.PlayerInventory.TagSellItems | src/inventory_escrow.cpp:258-314 | marks the smallest stacks of the exact item until enough units are marked, no stack more, or refuses and changes nothing |
| Inventory.OnlyMatchingStacksAreMarked | src/inventory_escrow.cpp:258-314 | what is marked are unmarked stacks of exactly the market's type, data and NBT, changed in nothing but the marker, and no smaller matching stack is left |
| Inventory.PlayerInventory.TaggedSellItems | src/inventory_escrow.cpp:316-329 | counts units and stacks marked for an escrow |
| Inventory.PlayerInventory.RestoreTaggedSellItems | src/inventory_escrow.cpp:331-345 | gives every marked stack its market item's NBT back and touches no other slot |
| Inventory.PlayerInventory.RemoveTaggedSellItems | src/inventory_escrow.cpp:347-357 | empties exactly the slots marked for the escrow |
| Inventory.PlayerInventory.ReplaceTaggedSellItemsWithReceipts | src/inventory_escrow.cpp:359-371 | puts one receipt in place of every marked stack |
| Inventory.PlayerInventory.RemoveSellReceipts | src/inventory_escrow.cpp:386-396 | empties exactly the slots with the escrow's receipts |
| Inventory.PlayerInventory.ClearDeliveryClaimTag | src/inventory_escrow.cpp:133-150 | takes the claim's tag off its stacks and touches no other slot |
| Inventory.RestoreUndoesTag | src/inventory_escrow.cpp:331-345 | restoring after tagging gives the original slots back |
| Inventory.RestoredCounts | src/inventory_escrow.cpp:331-345 | restoring makes exactly the marked units sellable again |
| Inventory.ReceiptsMatchStacks | src/inventory_escrow.cpp:359-371 | replacing turns every marked stack into one receipt and leaves none marked |
| SellEscrow.AdvanceKeeps | src/plugin.cpp:2315-2456 | every slot write, database step, crash and reconciliation step keeps marks, receipts and escrow statuses in agreement |
| SellEscrow.ItemsAreConserved | src/plugin.cpp:2315-2456 | over any run units of every item are conserved: free and PREPARED-marked stacks plus TAGGED and ORDERED escrows |
| EscrowStacks.UnsoldRunsKeepStacks | src/plugin.cpp:2315-2456 | a run in which no sell of the player becomes TAGGED keeps every stack the player owns, in its slot unless the player moves it, whatever was sold before and wherever the run was interrupted |
| EscrowStacks.RunsMakeNoStack | src/plugin.cpp:2315-2456 | no run, whatever it sells, makes or changes a stack: each occurs at most as often as before |
| EscrowStacks.CanceledRunsChangeNothing | src/plugin.cpp:2421-2434 | if every escrow ends CANCELED, but for those sold before the run, the inventory is the original one, slot by slot unless stacks were moved |
| EscrowRecovery.DriveReconciles | src/plugin.cpp:2421-2456 | one escrow's reconciliation, slot write by slot write and transaction by transaction, amounts to one step over whole inventories |
| EscrowRecovery.ReconciliationFinishes | src/plugin.cpp:2421-2456 | from any interruption point it ends CANCELED with its stacks given back exactly when too little was marked; a sell that is to go through ends as one new order, cleaned, with every marker gone, exactly when its market is active and the owner's balance can hold its proceeds, and TAGGED behind its receipts otherwise; other escrows keep their rows |
| EscrowRecovery.SubmissionFinishes | src/plugin.cpp:2315-2339 | an uninterrupted submission with enough stacks empties exactly the planned slots and ends as one new order with the request's market, owner, kind, price and quantity, cleaned, when the balance can hold its proceeds, and otherwise stops with receipts in exactly those slots |
| EscrowRecovery.ShortSubmissionCancels | src/plugin.cpp:2340-2348 | when the player holds less than asked for, the reconciliation of the catch block cancels the new escrow and no slot has changed |
| EscrowLoop.LoopEnds | src/plugin.cpp:2421-2456 | the loop ends every escrow it comes to as that one's own reconciliation would from the shop as it is then, and leaves the rows behind the first refused sell alone |
| EscrowLoop.LoopFinishesAll | src/plugin.cpp:2421-2456 | it leaves every escrow of the player done exactly when the exchange takes each sell as its turn comes |
| EscrowLoop.SolventLoopFinishesAll | src/plugin.cpp:2421-2456 | while all money inside fits 64 bits, that is exactly when none of the player's escrows, as they are before the loop, is to sell on an inactive market |
| EscrowCases.RefusedSellStaysTagged | src/plugin.cpp:2439-2446 | a run in which the market closes between crash and reconciliation leaves the sell TAGGED, its units neither in the inventory nor on offer |
| EscrowCases.FullPurseStaysTagged | src/plugin.cpp:2315-2339 | an uninterrupted run in which a sell on an active market stays TAGGED because its proceeds do not fit the seller's balance |
| EscrowRecovery.OneOrderEach | src/exchange_service.cpp:998-1002 | an ordered escrow has one order with its terms, shared with no other escrow |
| DeliveryClaims.AdvanceKeeps | src/plugin.cpp:2499-2558 | every step of handing out, crash, recovery, and claim operation of other players keeps tags and claims in agreement |
| DeliveryClaims.DeliveriesArriveOnce | src/plugin.cpp:2499-2558 | over any run the inventory gains exactly the units the database books as claimed |
| DeliveryClaims.ClaimRecoveryCloses | src/plugin.cpp:2505-2524 | recovery from any interruption closes a claim: canceled, or applied and cleaned, with no tag left |
| ClaimLoop.AllClaimsClose | src/plugin.cpp:2505-2524 | after the recovery loop every claim of the player is canceled, or applied and cleaned, and no tag of any is left |
| Joint.AdvanceKeeps | src/plugin.cpp:2315-2558 | with sells and deliveries interleaved in one inventory, every step keeps marks, receipts, tags, escrows and claims in agreement |
| Joint.ItemsAreConserved | src/plugin.cpp:2315-2558 | over any such run, with crashes anywhere and unmarked stacks moved, split or merged in between, units in the inventory plus units sold less units delivered never change |
| NbtRoundTrip.DecodeOfEncode | src/nbt_codec.cpp:225-255 | decoding an encoded compound within the length limit gives it back |
| NbtRoundTrip.EncodeIsInjective | src/nbt_codec.cpp:225-235 | different compounds have different encodings |
| NbtRoundTrip.OnlyWholeEncodingsDecode | src/nbt_codec.cpp:237-255 | every non-empty proper prefix of an encoding and every encoding with trailing bytes is rejected |
| NbtRoundTrip.ReadTagMore | src/nbt_codec.cpp:128-159 | bytes after a tag never change how the tag reads |
| NbtRoundTrip.DecodedIsWritable | src/nbt_codec.cpp:237-255 | what is accepted can be encoded, and decodes to itself again |
| NbtRoundTrip.RepeatedKeysAreAccepted | src/nbt_codec.cpp:212-220 | a compound with one key twice is accepted and its last value wins |
| NbtCanonical.EncodingIffAscending | src/nbt_codec.cpp:212-255 | an accepted input is the encoding of its value exactly when it is not empty and all its compounds list their keys in strictly ascending order |
| NbtCanonical.EmptyInputIsNoEncoding | src/nbt_codec.cpp:237-241 | the empty input is accepted as the empty compound and is no encoding |
| Formats.EncodingLayout | src/nbt_codec.cpp:225-235 | an encoding is "EXNB", version 1 and the compound's tag in its layout; only a text of 2^32 bytes or more has none |
| Formats.TagLayout | src/nbt_codec.cpp:15-93 | every tag is its type code, then its integers as low bytes of two's complement, lowest first, its texts behind a four-byte length, its parts behind a four-byte count, in order |
| Formats.LengthsAreLimited | src/nbt_codec.cpp:173-180 | a length is read exactly if it is at most 16 MiB |
| NbtStreams.Writer.Payload | src/nbt_codec.cpp:55-93 | the writer appends exactly the specified bytes, recursively |
| NbtStreams.Reader.Read | src/nbt_codec.cpp:128-159 | the reader consumes and returns exactly what the specification reads, or fails with the same error |
| NbtStreams.EncodeCompound | src/nbt_codec.cpp:225-235 | header and root tag as specified |
| NbtStreams.DecodeCompound | src/nbt_codec.cpp:237-255 | header check, root tag, end of input, as specified |
| Varint.ReadVarOfVar | src/structure_reader.cpp:275-292 | the reader inverts the writer on every 32-bit value and rejects every larger one |
| Formats.VarintGroups | src/hologram_packet.cpp:20-29 | the bytes are the number's groups of seven bits, lowest first, no more than needed, each but the last with the high bit |
| Varint.AppendVarUint | src/hologram_packet.cpp:20-29 | appends seven bits at a time, high bit on all but the last byte |
| Varint.ReadVarUint32 | src/structure_reader.cpp:275-292 | returns the specified value and stops right behind it |
| LevelDbProofs.BatchReplays | src/structure_reader.cpp:305-345 | inspecting a written batch has the effect of its puts and deletes in order |
| LevelDbProofs.LogReplays | src/structure_reader.cpp:347-415 | reading a log laid out in blocks, with any fragmentation, checksums and trailing zeros, equals replaying all batches |
| Formats.BlocksAre32KiB | src/structure_reader.cpp:347-415 | a record that ends one byte short of 32 KiB, the byte left over and a record behind it are read as these two records |
| Formats.LogsAreLimited | src/structure_reader.cpp:256-264 | a file is refused exactly above 64 MiB |
| LevelDbProofs.TornLogIsAPrefix | src/structure_reader.cpp:353-377 | a log cut off at any byte reads as the replay of exactly its whole records |
| LevelDbProofs.FragmentsNeverDropped | src/structure_reader.cpp:389-406 | for any file up to the size limit the guards on collected fragments never fire |
| LevelDbReader.LogReader.InspectWriteBatch | src/structure_reader.cpp:305-345 | the loop computes the specified inspection |
| LevelDbReader.LogReader.InspectLevelDbLog | src/structure_reader.cpp:347-415 | the scan computes the specified result and terminates |
| Pricing.DefaultIsNearest | src/trade_form.cpp:102-113 | the default price is the grid price nearest to the reference, the higher of two equally near |
| Pricing.DefaultStaysInRange | src/trade_form.cpp:102-113 | no intermediate value leaves 64 bits |
| Pricing.PrintedPriceReadsBack | src/trade_form.cpp:262-277 | every grid price is read back from its printed units, with any blanks around |
| Pricing.AcceptedPriceIsOnGrid | src/trade_form.cpp:262-277 | an accepted price is on the grid, in range, in whole units, and what the text says |
| Pricing.PriceIsAcceptedIff | src/trade_form.cpp:262-277 | exactly the texts of whole units on the grid are accepted |
| Pricing.TrimStripsBlanks | src/trade_form.cpp:15-25 | what is stripped from either side is blank, and no outer blank is left |
| Formats.DigitsAreDecimal | src/plugin.cpp:2126 | printed digits are those of base ten, most significant first, without a leading zero |
| Pricing.DefaultPriceIsAccepted | src/trade_form.cpp:102-113 | the form accepts its own default |
| Pricing.OrderValueFits | src/config.cpp:278-280 | no accepted price times an accepted quantity leaves 64 bits, in the order and in the review text |
| Pricing.TrimText | src/trade_form.cpp:15-25 | strips blanks from both ends |
| Pricing.FundingIffSpendable | src/plugin.cpp:499-547 | a deposit is granted exactly when the spendable balance covers what is required |
| Pricing.SpendableIsExact | src/plugin.cpp:499-518 | what can be spent is the balance and 100 cents for each unit outside, and is refused exactly without UMoney or when a sum leaves 64 bits |
| Pricing.FundingIsLeast | src/plugin.cpp:520-547 | the deposit is the least number of whole units that suffices and leaves less than one unit over |

## Left out

- Transactions are atomic steps; row locks, deadlocks and MySQL's lock order are not modelled.
- Ids are indexes: a source id is index + 1. Gaps that AUTO_INCREMENT leaves after a rollback are not modelled.
- Strings compare exactly; MySQL's case-insensitive collation of keys such as player ids is not modelled.
- SHA-256 is an arbitrary function of the fingerprint text.
- Display names, dimensions, coordinates, timestamps, attempt counters, error texts and the completeness checks on them are not part of the rows.
- Parts of rows nothing else depends on are absent: operation keys, created_by, item names.
- Exceptions are error values; which text the player sees is not modelled.
- Service.ExchangeService.RetireMarket: settles orders in id order, where the source's query leaves the order open; the result differs only in the order of ledger entries and deliveries.
- Queries that only list rows (openOrders, pendingDeliveries, activeMarkets, positiveBalances, boundFrameListings) are not modelled.
- Inventory.PlayerInventory.TagSellItems: markers are a field of the stack instead of a string in its NBT, and only markers the plugin writes itself are modelled; std::sort's order of equal amounts is left open by the contract.
- SellEscrow.ItemsAreConserved: the inventory is assumed to survive a crash together with the database, and between steps the player moves stacks but neither splits, merges nor loses them; `Joint` also admits splitting and merging stacks without a marker.
- DeliveryClaims.DeliveriesArriveOnce: same assumption; how addItem spreads units over slots is left open.
- Saga.UndisturbedRunsAreHonest: the external balance is assumed to be atomic and durable; the Python calls and file syncs behind it are not modelled.
- Saga.HonestIffNeverFooled: the condition is about the balance a judgement sees and whether the change has happened, not about the calls that led to it.
- Joint.ItemsAreConserved: the cleanup of markers at the start of `claimDeliveries` and the choice of which delivery to claim next are steps a run may take, not one procedure; splitting a marked stack is not admitted.
- Funding.SweepFinishes: one account; the page of 100 accounts and the throttling of the sweep are not modelled.
- Liveness of BLOCKED transfers and of sells on a market that stays inactive is not claimed: the code waits for an operator or retries.
- Nbt: Endstone's tag classes are not part of this model; a compound is taken to be a map in key order, lists may mix types, floats are bit patterns, and stack depth is unbounded.
- LevelDb: record checksums are not checked by the reader and are arbitrary in the model; the reader of NBT structure files behind the captured value is left out.
- The cleanup of stale claim, escrow and frame markers of unknown rows, the frame clearing and drop spawning, and the hologram payload depend on world state outside these files.
- Events, forms, commands, localization, the response parser of text forms and the snapshot thread are user interface and are left out.
