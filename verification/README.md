# A model of the trading floor's protocols and arithmetic

The repository runs an automated trading desk: an Analyst picks symbols, a Dealer decides and picks
option contracts, a Floor Broker talks to the venue, and a backtest simulator replays strategies over
bars. These Dafny files model the parts in which a mistake costs money, and prove what those parts
are for.

`dafny verify dfyconfig.toml` checks the whole project.

## What is modelled

**The option-order protocol** (`OptionBroker`, `OptionProtocol`, `FloorBroker`). The venue is a map of
orders with cumulative fills and absorbing terminal statuses, and a net position per contract. The
process is its two maps, the reconciled flag and the program points of its threads; the database is the
rows of `options_trades`. Every lock section and every call to the venue or the database is one step,
steps of all threads interleave freely, a crash loses the process and nothing else, and a step whose
guard fails does nothing, so a run is any list of steps. `FloorBroker` is the same code written as the
source has it: methods that update the maps in place, block by block, with the rest of the world acting
between the blocks. Each public method is proved to be a run of the step system whose own steps are
exactly those of the call, and to keep a sound state sound: never short, reported at most once, and
truly. `ThreadFrames` says which steps are whose and what the others leave alone.

- `NeverShort`: from any venue that is not short, over every run with any crashes, no contract is ever
  short or can become short.
- `Opening`: from a flat contract, however a BUY fills, ends and is polled, once nothing of it is
  outstanding the contract is balanced.
- `ExitConservation`: from there on, tracked quantity = venue position + what the exit order has filled,
  and the open row repeats the tracked entry, until a complete exit.
- `ExactlyOnce`: one report per order and one row per BUY in a process life, and no resurrection.
- `TrueReports`: every report agrees with the venue.
- `LastPolls`: what the poll of a filled BUY and the last poll of an exit order leave behind, row by row.
- `ClosedRows`: rows are never lost and never change once closed, and each row closed in a process life
  agrees with a finished SELL of its contract.
- `SaleRegisters`: what a submitted sale takes out of the pending map, and that a BUY it cancelled is
  done with.
- `CallChecks`: what the answers of `sell_option` and `buy_option` rest on.
- `RestartReads`, `OpenRows`, `RestartLimits`, `RestartRuns`: exactly when an exit adds up again after a
  restart, the venue and the fill poll moving freely and any number of attempts failing first, in terms
  of the venue at the reads of the reconcile; and runs in which it does not.
- `EmptyExits`, `EmptyExitRuns`: exactly which open BUYs a sale that finds no position loses sight of, in
  any interleaving, and two runs in which it does.
- `SaleLimits`: exactly when a sale, with nothing else running, beside an unwatched SELL can go short.
- `SecondInserts`: when an order of before a restart may get a second row.
- `Reconcile`, `RestoredState`, `FailedAttempts`, `ReconcileRefines`, `RestartAttempt`: the rebuild after
  a restart as the source writes it, what exactly it restores, its confluence under failing reads, what a failed attempt leaves behind, that it is a
  run of the protocol's reconcile steps with the venue moving between its reads (`VenueMoves`), and what
  it makes of an exit in terms of what it reads.

**Bracket and budget arithmetic** (`BracketOrders`, `BuyConditions`): tick rounding, the two-cent clamp,
whole shares, the risk cap, topping up, the retry at the venue's own price, crypto notionals, and exactly
when an order goes out. `FirstOrders`: reconcile
attempts and BUY calls on the one flag they share.

**The backtest** (`Simulator`, `TradesExplained`, `TradesPriced`, `SimulatorLaws`, `NoLookahead`, `Metrics`): the loop as
written, for an arbitrary strategy function; what its trades mean; conservation, ordering, loss and
two-run results.

**Selection** (`BucketAllocation`, `OptionPick`, `OccCodec`): largest-remainder slots with backfill,
grounding of option picks, history trimming, sizing, and the two OCC symbol parsers.

## Assumptions of the protocol model

- An error on submit means the order was not accepted. The venue never forgets an order and never
  reuses an id; a terminal status is final; a cancel takes effect at once or fails. An order absent
  from the venue's orders is what the source sees as "not found".
- The list of open orders is exactly the orders in one of the nine non-terminal statuses.
- filled_avg_price is present exactly when something has filled, and filled_qty is then reported.
- Nobody else trades the contracts, so positions move only through these orders.
- `sell_option` calls for one contract do not overlap, and nothing is sold before the first successful
  reconcile: `MaySell` says both. `SaleShortIffUnwatched` shows what they rule out.
- One thread polls fills and one reconciles. Any number of BUY calls run at once.
- Database helpers may fail silently at any write. `ExitConserved` is about runs without such a loss.

## Where the code and its own text differ

The model follows the code.

- The comments on `risk_per_trade_usd` (config.default.yaml:66-68, config.yaml:81) promise that a
  stopped-out BUY loses at most that amount. Rounding and the two-cent clamp can lower the stop:
  `StoppedOutLoss` is the bound that holds, `RiskKeptIff` says exactly at which price and fraction every
  stock order keeps the promise, and `ClampDoublesRisk` is a fifty-cent stock that risks $200 for a
  configured $100.
- `_allocate_bucket_counts` says its counts always sum to the pool size. With no weight at all they
  are zero: `AllocateBucketCounts` states when the sum is the pool size.
- `reconcile_tracked_state_once` says a failed attempt leaves the tracked state untouched. An attempt
  that fails at a later read keeps what the earlier ones rebuilt: `FailedAttemptKeepsIff` says exactly
  when it changes nothing, `FailedAttemptTracks` is one that does not, and `AttemptsConfluent` shows
  that this never changes where a later success ends.
- A restart in the middle of an exit takes the tracked quantity from the venue at one read, finds the exit
  order again at a later one, and keeps the row of before. What the order sold before the first read is
  taken off again when it is settled, and an order that ends between the two reads is not found:
  `RestartBalancedIff`, `RestartExitIff`, `FreshAttemptExitIff` and `CrashDuringExit` say exactly when the
  three agree; `RestartLosesPosition` and `FillsBetweenReads` are runs in which they do not.
- The no-position exit of `sell_option` also drops a BUY whose cancel failed, which its docstring says
  stays tracked, and one registered during the call: `EmptyExitWatchesBuysIff`, with `LosesSightOfBuy` and
  `LosesBuyRegisteredMeanwhile` for runs that do it.
- The two OCC parsers read years 69 to 99 in different centuries: `ParsersAgree`.

## Model

| member | source | states |
|---|---|---|
| NeverShort.NeverShortOverRuns | src/floor_broker/execution.py:1677-1741 | over every run from any never-short venue, crashes and restarts included: positions stay non-negative, at most one open SELL per contract and covered by the position, and while reconciled each open SELL is pending or held by the call that sent it |
| NeverShort.StepKeeps | src/floor_broker/execution.py:317-513 | each of the 24 steps of any thread keeps the inductive invariant behind it |
| NeverShort.RunKeeps | src/floor_broker/execution.py:1651-1741 | so does every interleaving of them |
| NeverShort.SellBeginKeeps | src/floor_broker/execution.py:1677-1683 | when no SELL is pending and the process is reconciled, the venue has no open SELL of the contract |
| NeverShort.SellAcceptedKeeps | src/floor_broker/execution.py:1709-1721 | a SELL sized to the venue's position is covered when the venue takes it |
| NeverShort.SellSizeKeeps | src/floor_broker/execution.py:1697-1716 | sizing after the cancels, and dropping the tracking when there is no position, keep the invariant |
| NeverShort.SellRegisterKeeps | src/floor_broker/execution.py:1726-1741 | registering the SELL, whatever else leaves the pending map with it, keeps every open SELL watched; what leaves is said by `SaleDropsConfirmed` |
| NeverShort.CancelMoves | src/floor_broker/execution.py:1685-1696 | a cancel uncovers no SELL and reopens nothing |
| NeverShort.ReconRegisterKeeps | src/floor_broker/execution.py:1004-1045 | re-registering the venue's open orders one by one leaves none of its open SELLs unwatched |
| NeverShort.ReconOrdersKeeps | src/floor_broker/execution.py:979-995 | fetching the list of open orders re-establishes that every open SELL is watched |
| NeverShort.NothingSubmittedUnreconciled | src/floor_broker/execution.py:1173-1180 | in any run, until the first successful reconcile the venue gets no new order: for BUYs by the gate of the source, for SELLs by the assumption `MaySell`, since `sell_option` has no such gate |
| ExitConservation.ExitConserved | src/floor_broker/execution.py:384-445 | from a balanced contract, which is how `OpenedIsBalanced` leaves it, every run without a crash or lost write ends balanced, or went through a complete exit followed by a new BUY |
| ExitConservation.FlatIffNothingHeld | src/floor_broker/execution.py:416-436 | with no exit order out, the entry is dropped and its row closed exactly when the venue holds nothing; otherwise entry and row carry the exact remainder and the entry premium |
| ExitConservation.SettleSellKeepsExit | src/floor_broker/execution.py:397-444 | settling a finished SELL takes exactly its fills off the tracked quantity, and the row follows |
| ExitConservation.AdvanceKeepsExit | src/floor_broker/execution.py:416-418 | a fill of the exit order moves quantity from the position to the order and leaves the sum alone |
| ExitConservation.SaleKeepsExit | src/floor_broker/execution.py:1718-1721 | submitting the exit order keeps the balance |
| ExitConservation.SellDropKeepsExit | src/floor_broker/execution.py:1700-1716 | the no-position exit drops nothing that still counts |
| ExitConservation.StepKeepsExit | src/floor_broker/execution.py:384-445 | every step other than a crash, a lost write or a new BUY keeps the balance |
| ExitConservation.ReentryOnlyWhenFlat | src/floor_broker/execution.py:1281-1300 | the duplicate check lets a new BUY of a balanced contract in only after a complete exit |
| ExitConservation.DbUpdate | src/common/db.py:226-243 | updating the open row makes it repeat the new quantity under the old premium |
| ExitConservation.DbClose | src/common/db.py:207-223 | closing leaves no open row of the contract |
| Opening.OpenedIsBalanced | src/floor_broker/execution.py:447-508 | from a flat contract with one BUY past the duplicate check, every run without a crash, a lost write, a sale of the contract or a second such BUY is balanced whenever nothing of the BUY is outstanding |
| Opening.StepOpens | src/floor_broker/execution.py:447-508 | each such step keeps the invariant behind it: the entry is what the polls have seen of the BUY, and all of it once it is over |
| Opening.LastPollBalances | src/floor_broker/execution.py:447-508 | committing and storing the last poll of that BUY balances the contract at once |
| LastPolls.LastPollCompletesExit | src/floor_broker/execution.py:397-444 | once the exit order of a balanced contract is read as finished, commit and store end the exit with one report and leave the contract flat exactly when the venue holds nothing, and otherwise tracking what it holds; when nothing is left, every row open for the contract is closed for the sale's reason at the order's average price, with its terms, premium and quantity as before, and no other row changes |
| LastPolls.SellPolledRows | src/floor_broker/execution.py:397-444 | in any state: a polled SELL that is over closes its contract's open rows at its price when it took all that was tracked and otherwise restates them with the remainder under the entry premium; one still open, unfilled or no longer listed writes no row; no other row changes |
| LastPolls.BuyPolledRows | src/floor_broker/execution.py:447-508 | a polled BUY opens one row at its price and size the first time, restates the open rows later, and changes no other |
| LastPolls.FillPolled | src/floor_broker/execution.py:447-508 | a polled fill of a BUY is tracked under its own terms, price and size; the entry is kept, its row counted as opened, exactly while the order is open; the first such poll reports and inserts, later ones do neither |
| LastPolls.ReadAnswers | src/floor_broker/execution.py:369-380 | a read that fails keeps the entry, an order the venue does not know is dropped unreported, otherwise the poll goes on with exactly the venue's answer |
| LastPolls.UnfilledPolled | src/floor_broker/execution.py:441-445 | a polled order of either side that has filled nothing is dropped and reported exactly when it is over, and nothing of it is tracked |
| LastPolls.LeftAlone | src/floor_broker/execution.py:395-405 | a SELL filled but still open, and an order filled but no longer listed, leave everything as it was |
| LastPolls.RowOnlyWhileTracked | src/floor_broker/execution.py:484-508 | however other threads ran since the commit, the row of a first fill is opened only if the contract is still tracked, and the fill is reported either way |
| ClosedRows.ClosedRowsAreTrue | src/common/db.py:207-223 | over any run of one process life no row disappears or changes contract or terms, a row closed before is as it was, and each row closed since carries the reason its SELL was sold under, as the call was given it or the reconcile relisted it, and the average price of that SELL, which is over and of the row's contract |
| ClosedRows.StepKeepsRows | src/common/db.py:207-243 | no step, a crash included, takes a row away or changes a closed one or a row's terms; closing leaves premium and quantity; only the poll's database call changes rows |
| ClosedRows.StepKeepsClosed | src/floor_broker/execution.py:397-425 | each step keeps the invariant behind it: what is pending, polled or about to be stored was sold under the reason it carries |
| ClosedRows.CallClosesTruly | src/floor_broker/execution.py:369-425 | what one call of check_pending_option_fills closes, it closes as a SELL that was pending when it took its snapshot, now over, says |
| SaleLimits.SaleShortIffUnwatched | src/floor_broker/execution.py:1677-1720 | with nothing else running during the call: a sale with no SELL pending, its stale BUYs cancelled or not, lets the venue go short exactly when it has an open SELL of the contract with something left to sell |
| EmptyExits.EmptyExitWatchesBuysIff | src/floor_broker/execution.py:1677-1716 | a sale that finds no position, with any steps of any thread and of the venue between its first lock section and its sizing: if every open BUY was watched when it began, every open BUY is watched afterwards exactly when no stale BUY without a confirmed cancel, and none registered meanwhile, is open at the sizing |
| EmptyExits.StepAccounts | src/floor_broker/execution.py:1626-1641 | every step keeps account of the open BUYs of a contract: pending at the start, registered since, or still with the call that submitted them |
| EmptyExits.QuietEmptyExitWatchesBuysIff | src/floor_broker/execution.py:1685-1716 | with nothing else running during the call, in terms of its cancels: exactly when each stale BUY was confirmed cancelled or was over when the call began |
| EmptyExitRuns.LosesSightOfBuy | src/floor_broker/execution.py:247-265 | a run from a fresh process, reconcile, BUY, then a sale whose cancel is refused, that ends with the BUY open at the venue and nothing tracked |
| EmptyExitRuns.LosesBuyRegisteredMeanwhile | src/floor_broker/execution.py:247-265 | a run in which a BUY that has passed its checks is registered between the first lock section and the sizing of a sale, and ends open and untracked with no cancel refused |
| RestartLimits.RestartBalancedIff | src/floor_broker/execution.py:871-1047 | from a fresh process on any never-short venue with the contract's BUYs over, any steps of one process life up to the first success (failed attempts, venue moves, polls): the tracked quantity accounts for the exit exactly when its SELL, still open when listed, had sold nothing at the position read the entry came from, or, over by then, sold nothing between the two reads; with what holds when nothing was restored or the poll has already settled it |
| RestartLimits.RestartExitIff | src/floor_broker/execution.py:871-1047 | on such runs without a lost database write, quantity, exit order and row agree exactly when besides the open rows of before are the one of the restored entry, or one is left for the poll's update |
| RestartReads.StepRereads | src/floor_broker/execution.py:923-1047 | every step up to the success keeps what is tracked of the contract tied to the venue at the reads |
| RestartAttempt.FreshAttemptBalancedIff | src/floor_broker/execution.py:792-868 | through the code's own attempt, the venue moving between its reads: the quantity accounts for the exit exactly when a position with a row, or with a parsable symbol and price, was among those read and the SELL's sales are in view of the reads |
| RestartAttempt.FreshAttemptExitIff | src/floor_broker/execution.py:792-868 | and the row agrees besides exactly when the contract has one open row, of the quantity the venue holds at the position read, or no open row where nothing can be rebuilt |
| RestartAttempt.CrashDuringExit | src/floor_broker/execution.py:792-868 | a crash in a balanced exit, with the venue moving before and between the reads: the entry is the venue's position under the old premium, the open row still carries position plus sales of before, and all agree exactly when the SELL has sold nothing by the position read and nothing the list then misses |
| RestartRuns.RestartLosesPosition | src/floor_broker/execution.py:397-424 | a run from a half-sold exit through restart, cancel and last poll that ends with the venue holding one contract and nothing tracking it |
| RestartRuns.FillsBetweenReads | src/floor_broker/execution.py:931-995 | a run in which nothing had sold before the restart, the SELL fills between the two reads, and two contracts stay tracked that the venue no longer holds |
| ExactlyOnce.ReportedAtMostOnce | src/floor_broker/execution.py:317-513 | over any run of one process life each order id is in at most one event and at most one row insert |
| SecondInserts.SecondInsertOnlyWithoutRow | src/floor_broker/execution.py:998-1040 | an order of before a restart gets a row insert in the new process life only if the reconcile, when it read the rows, found no open one of its contract |
| ExactlyOnce.StepKeepsOnce | src/floor_broker/execution.py:447-511 | each step keeps the invariant that a reported order still pending is a BUY whose row counts as opened |
| ExactlyOnce.PollStoreKeepsOnce | src/floor_broker/execution.py:424-440 | the database call, which may fail silently, and the event keep reports and inserts distinct |
| ExactlyOnce.LeavesForGood | src/floor_broker/execution.py:1733-1735 | an order that leaves the pending map, by its poll or by a concurrent sell, also while a reconcile is still registering, is held by nothing any more |
| ExactlyOnce.StepAddsOnlyHeld | src/floor_broker/execution.py:1629-1641 | an order enters the pending map only from the call that registers it |
| ExactlyOnce.StaysGone | src/floor_broker/execution.py:460-467 | once gone it stays gone for the rest of the process life |
| ExactlyOnce.UnlistedCommitsNothing | src/floor_broker/execution.py:400-405 | a poll that reaches the lock with its order no longer pending writes no position, entry or row |
| ExactlyOnce.GoneNeverWrites | src/floor_broker/execution.py:362-367 | a poll that read a gone order before it was dropped commits nothing in any later state |
| SaleRegisters.PendingLeaves | src/floor_broker/execution.py:1697-1735 | an entry leaves the pending map in three ways only: its poll finds the order over, the sale of its contract finds nothing to sell, or a sale that had it cancelled is registered |
| SaleRegisters.SaleDropsConfirmed | src/floor_broker/execution.py:1685-1735 | a sell_option call that ends by registering its SELL, in any interleaving: no BUY whose cancel was confirmed to it is pending, and each other BUY of the contract pending at entry still is, unless the poll took it out |
| SaleRegisters.CallKeepsEntry | src/floor_broker/execution.py:1729-1735 | while the call goes on, only the poll takes out an entry of its contract |
| SaleRegisters.CancelledBuyNeverWritesAgain | src/floor_broker/execution.py:1733-1735 | in any process life: once the SELL is registered and no commit of it is under way, the poll never again changes a position, an entry or a row for a BUY whose cancel the sale had confirmed, and nothing watches that BUY any more |
| CallChecks.SaleSellsAll | src/floor_broker/execution.py:1709-1721 | a registered sale asks for all the venue held when the call last asked |
| CallChecks.RegisteredBuyPassed | src/floor_broker/execution.py:1281-1300 | a registered BUY found no BUY of its contract in flight and nothing tracked when it checked its memory, and no position, or no answer, at the venue; its order is for the quantity its entry says |
| CallChecks.SkippedFoundDuplicate | src/floor_broker/execution.py:1281-1300 | a call that neither gives up nor registers was turned away by one of the two checks |
| TrueReports.ReportsAreTrue | src/floor_broker/execution.py:437-444 | over any run of one process life every reported event agrees with the venue: a SELL fill is the order's whole final fill at its price, a BUY fill has happened in that size, an order reported as ended is over and unfilled |
| TrueReports.CommitKeepsTrue | src/floor_broker/execution.py:384-480 | what either branch of the poll decides to report at its commit is true of the venue |
| TrueReports.StepKeepsTrue | src/floor_broker/execution.py:447-511 | every step keeps the reports, also those not yet returned, true of the venue |
| TrueReports.LifeKeepsSound | src/floor_broker/execution.py:317-513 | any stretch of one process life keeps a state never short, reported at most once and truly |
| FloorBroker.FloorBroker.Restart | src/floor_broker/execution.py:102-124 | a fresh process has empty maps and is not reconciled, whatever the venue and the rows hold |
| FloorBroker.FloorBroker.SellOption | src/floor_broker/execution.py:1651-1741 | a call is a run: enter, ask to cancel each BUY of the contract pending at entry once, size, submit, register, as far as the answers let it; a pending SELL changes nothing; a submitted SELL ends up pending under its reason and the tracked symbol, for all the venue showed when asked; from a sound state no BUY confirmed as cancelled is then pending and each other one still is unless the poll took it out; a sale skipped for want of a position leaves nothing of the contract tracked; a sound state stays sound |
| FloorBroker.FloorBroker.CancelStaleBuys | src/floor_broker/execution.py:1685-1696 | the loop asks to cancel each stale BUY exactly once |
| FloorBroker.FloorBroker.BuyOption | src/floor_broker/execution.py:1573-1648 | an unreconciled process skips; otherwise a call is a run: admitted, checked in memory and at the venue, submitted, registered with its own terms; a submitted BUY has passed both checks and its order is for the quantity of its entry; a skipped one found a duplicate; a sound state stays sound |
| FloorBroker.FloorBroker.CheckPendingOptionFills | src/floor_broker/execution.py:317-513 | a call is a run that visits each snapshot entry once, in order, and returns exactly the events it appended: from a sound state, of distinct orders, none reported before, each true of the venue; each row closed meanwhile carries the reason of a SELL of the snapshot, now over, and its average price, and rows closed before are as they were |
| FloorBroker.FloorBroker.Snapshot | src/floor_broker/execution.py:216-218 | the snapshot holds every pending entry as it was |
| Reconcile.AttemptsConfluent | src/floor_broker/execution.py:871-1047 | whatever reads failed and whatever raised in a first attempt, a complete one on the same snapshot whose best-effort crypto step gets at least as far ends where it would have ended alone; with two complete ones, idempotence |
| Reconcile.FlagOnlyOnSuccess | src/floor_broker/execution.py:1046-1047 | only an attempt in which every read succeeds and the option rebuild does not raise sets the flag, and none clears it |
| Reconcile.SuccessTracksAll | src/floor_broker/execution.py:968-1045 | after a success every open option SELL, every parsable option BUY and every recoverable long option position is tracked |
| Reconcile.RestartTracksExactly | src/floor_broker/execution.py:792-868 | from empty maps a success tracks only what the venue has, each entry with the venue's size and the row's or the average premium, each pending order with its side, quantity and contract, a BUY counting its row as opened exactly when the contract has an open one |
| RestoredState.RestartTracksTheRest | src/floor_broker/execution.py:747-765 | from empty maps, when the crypto step does not raise, a success tracks of stocks and crypto exactly: the stops of crypto positions with a positive price and no pending BUY, at slP and tpP times that price and so around it for slP < 1 < tpP; each awaited fill with its listed order's symbol and side; as bracket of a symbol a listed order of it with a live leg; the opening record of each stock and crypto position |
| FailedAttempts.FailedAttemptKeepsIff | src/floor_broker/execution.py:871-975 | for any state and any way to fail, an attempt that fails changes nothing exactly when every fill, bracket, stop, opening record and entry it got to was tracked already |
| FailedAttempts.FreshFailureKeepsIff | src/floor_broker/execution.py:896-930 | a process tracking no fills or brackets that cannot read the positions stays untouched exactly when no listed order calls for either |
| FailedAttempts.FailedAttemptTracks | src/floor_broker/execution.py:896-930 | an attempt that fails and yet tracks an order |
| ReconcileRefines.CompleteAttemptIsRun | src/floor_broker/execution.py:923-1047 | on answers read from venue and rows, the venue moving between its two reads, a complete attempt does to the option maps and the flag exactly what a run of the protocol's reconcile steps does |
| Reconcile.TrackedState.ReconcileTrackedStateOnce | src/floor_broker/execution.py:871-1047 | one attempt, with the exceptions of its crypto step and option rebuild, computes the specified state, which `RestartTracksExactly` and `RestartTracksTheRest` spell out, and returns whether it was complete |
| Reconcile.TrackedState.ReconstructTrackedState | src/floor_broker/execution.py:1050-1069 | retrying on one snapshot succeeds exactly when some attempt is complete, ends in the state of a single success, and leaves the flag alone otherwise |
| Reconcile.TrackedState.RestoreOrders | src/floor_broker/execution.py:896-916 | brackets and pending fills from the open orders, options left out |
| Reconcile.TrackedState.RestoreStops | src/floor_broker/execution.py:747-765 | crypto stops from the positions, at the two fractions `RestartTracksTheRest` gives, never over an existing one or a pending BUY |
| Reconcile.TrackedState.BackfillOpens | src/floor_broker/execution.py:957-964 | every stock and crypto position gets an opening record |
| Reconcile.TrackedState.RestoreEntries | src/floor_broker/execution.py:792-868 | option entries from the latest open row, or from the symbol and the average price |
| Reconcile.TrackedState.RestoreOptionFills | src/floor_broker/execution.py:1003-1042 | pending option orders, never over an existing entry |
| BracketOrders.RoundedNear | src/floor_broker/execution.py:1106-1109 | a rounded price is a legal tick within half a tick, and positive exactly above half of the smallest one |
| BracketOrders.LegsClearReference | src/floor_broker/execution.py:1150-1156 | both legs are legal prices a cent and a half off the ask for any percentages; when the stop is positive |
| BracketOrders.TakeProfitNear | src/floor_broker/execution.py:1150-1151 | the take-profit is within half a tick, on both sides, of the larger of ask * tpP and ask + 0.02 |
| BracketOrders.StopLossNear | src/floor_broker/execution.py:1152-1156 | the stop is within half a tick, on both sides, of the smaller of ask * slP and ask - 0.02 |
| BracketOrders.LegsOfSubmitted | src/floor_broker/execution.py:1401-1427 | every submitted stock order, the retry included, has both legs there relative to its own reference price |
| BracketOrders.QtyIsLargest | src/floor_broker/execution.py:1100-1103 | a number of shares is affordable exactly when it is at most the computed one |
| BracketOrders.BuiltIff | src/floor_broker/execution.py:1112-1170 | exactly when an order is built and when each error arises; never through the take-profit or the notional check |
| BracketOrders.BuiltFillsBudget | src/floor_broker/execution.py:1158-1165 | a built order costs at most the budget and one more share would not |
| BracketOrders.SubmittedFrom | src/floor_broker/execution.py:1401-1427 | first try or retry, a submitted order was built from the authorized budget at its own reference price |
| BracketOrders.OrderWithinBudget | src/floor_broker/execution.py:1206-1245 | existing value plus cost stays within the requested budget and the risk cap, maximally |
| BracketOrders.CappedIsLess | src/floor_broker/execution.py:1436-1440 | the cap only ever lowers the budget |
| BracketOrders.StoppedOutLoss | src/floor_broker/execution.py:1233-1245 | what a capped order loses at its stop: at most the configured risk less what the held position carries plus half a cent a share, or two and a half cents a share |
| BracketOrders.RiskKeptIff | src/floor_broker/execution.py:1154-1156 | at one reference price and stop fraction, every submitted stock order, for all budgets, configured risks, holdings, target fractions and venue answers, first try or retry, loses at most the configured risk less what the holding carries, exactly when neither the rounded stop nor the clamp lies below the fraction |
| BracketOrders.ClampDoublesRisk | src/floor_broker/execution.py:1149-1156 | a concrete order that risks twice the configured amount |
| BracketOrders.CryptoWithinBudget | src/floor_broker/execution.py:1372-1398 | a crypto notional is whole cents, at least the minimum, and within half a cent of the remaining budget |
| BracketOrders.GatesHold | src/floor_broker/execution.py:1173-1203 | no stock or crypto BUY leaves while any preflight gate is shut |
| BuyConditions.StockSubmittedIff | src/floor_broker/execution.py:1173-1245 | a stock order goes out exactly when every gate is open, something is left of the limit, the quote passes the spread check, a share fits, and the venue takes the order, at once or rebuilt at its own price; under which id and reference price |
| BuyConditions.CryptoSubmittedIff | src/floor_broker/execution.py:1372-1398 | the same for a crypto order, and for how much |
| BuyConditions.SkipIsTrue | src/floor_broker/execution.py:1173-1245 | a stock BUY that is skipped is skipped for a reason that is so of what the call read: the gate named is shut, the quote, the budget or the order is as said |
| BuyConditions.CryptoSkipIsTrue | src/floor_broker/execution.py:1372-1398 | so is a crypto BUY, a pair not quoted in dollars and too small a rest included |
| BuyConditions.CappedIsHeldTo | src/floor_broker/execution.py:1233-1245 | the budget is held to the smaller of the requested one and the amount that loses the configured risk at the stop fraction |
| BuyConditions.SpreadIff | src/floor_broker/execution.py:1318-1344 | with a spread limit an order has a reference price exactly when the quote is whole and its spread within the limit, and it is then the ask |
| FirstOrders.NoOrderBeforeSuccess | src/floor_broker/execution.py:1173-1180 | in any sequence of reconcile attempts and BUY calls on one shared state, from a process just started, a call that sends an order comes after a complete attempt; before one, every call is turned away and changes nothing |
| FirstOrders.FlagIffSucceeded | src/floor_broker/execution.py:1046-1047 | in such a sequence the flag is set exactly when some attempt was complete |
| Reconcile.TrackedState.Buy | src/floor_broker/execution.py:1430-1505 | the outcome is the specified one on this state's own flag, and exactly a submitted order is tracked, under its own id: a bracket with its stop below and its target above the reference price, each within half a tick of what the fractions give, a crypto notional with the configured levels |
| Simulator.Simulate | src/backtest/simulator.py:59-146 | the loop computes the specified simulation, whose numbers `TradesPriced` spells out, or nothing exactly when a BUY would divide by a zero price |
| SimulatorLaws.CashConserved | src/backtest/simulator.py:64-131 | at every bar cash = starting cash + realised pnl - cost of the open position |
| SimulatorLaws.FillKeepsBooks | src/backtest/simulator.py:73-102 | a fill at the open, of either side or none, keeps cash = starting cash + realised pnl - cost of the open position |
| SimulatorLaws.FinalEquity | src/backtest/simulator.py:126-146 | the last equity point is the starting cash plus all pnl |
| SimulatorLaws.TradesDisjoint | src/backtest/simulator.py:69-141 | trades occupy pairwise disjoint, increasing stretches of bars |
| SimulatorLaws.Exposure | src/backtest/metrics.py:54-64 | on such trades the result is the number of covered bars over the number of bars; the clamp never fires |
| SimulatorLaws.ExposureIsTimeHeld | src/backtest/metrics.py:55 | the covered bars are exactly those during which a position was open |
| SimulatorLaws.TradeLossBounded | src/backtest/simulator.py:104-141 | a trade no signal closed loses at most budget * (1 - slP * (1 - slippage)) |
| SimulatorLaws.EquityBounded | src/backtest/simulator.py:130-131 | while a position is open every equity point lies above booked cash less budget * (1 - slP); otherwise it is booked cash |
| TradesExplained.TradesAreExplained | src/backtest/simulator.py:31-57 | every trade, in terms of bars and strategy alone: entered at the open after the strategy, holding nothing, said BUY; held while no bar reached a level and the strategy did not say SELL; ended for the reason and at the price it reports, the stop before the target; how much it bought is said by `TradesArePriced` |
| TradesPriced.TradesArePriced | src/backtest/simulator.py:24-141 | every trade in plain arithmetic: the price paid is the open with slippage against the trader, a crypto quantity times it is the budget, a stock quantity is whole and the largest the budget pays for, each exit price is the one its reason names, the pnl is what quantity and prices give |
| TradesPriced.PositionIsPriced | src/backtest/simulator.py:69-81 | the same of a position still open, with its two levels |
| TradesPriced.BuyOpensIff | src/backtest/simulator.py:69-81 | after a BUY said while holding nothing the next bar opens a position exactly when the budget pays for a positive quantity at that price |
| TradesPriced.CurveIsWorth | src/backtest/simulator.py:126-141 | each equity point is starting cash plus realised pnl plus the open quantity times the move since entry |
| TradesExplained.FillKeepsStory | src/backtest/simulator.py:73-102 | a fill at the open happens only on what the strategy said on the bar before |
| TradesExplained.BracketKeepsStory | src/backtest/simulator.py:104-124 | after the bracket check each trade is explained by the first level its bars reached, and a position still open reached none |
| NoLookahead.PrefixAgrees | src/backtest/simulator.py:36-38 | a prefix of the data gives the longer run's trades up to there plus at most one end_of_data trade, with equal equity points but the last |
| NoLookahead.FillsSeeOnlyTheOpen | src/backtest/simulator.py:73-102 | two runs that agree before a bar and on its open make the same signal exits and the same entry there |
| Metrics.DrawdownIsDeepestFall | src/backtest/metrics.py:18-23 | on a positive curve the running-maximum form is the deepest fall over all pairs in order, attained, above -1 and at most 0 |
| Metrics.ExpectancySplits | src/backtest/metrics.py:33-51 | expectancy = win rate * average win + (1 - win rate) * average loss |
| Metrics.RatesAreShares | src/backtest/metrics.py:33-45 | the win rate is the number of trades with positive pnl over all trades; the average win is over exactly those, the average loss over the others |
| Metrics.ReturnIsExpectancyTimesCount | src/backtest/metrics.py:9-11 | total return * starting cash = expectancy * trade count for every simulation |
| BucketAllocation.AllocateBucketCounts | src/analyst/graph.py:72-85 | with weight, all slots by largest remainder; without, none; the sum is the pool size exactly when there is weight or nothing to hand out |
| BucketAllocation.BumpedIsLargestRemainder | src/analyst/graph.py:79-84 | bumping the sorted prefix gives each bucket its share rounded down or up, never up from a whole share, up where the fractions are largest |
| BucketAllocation.LeadersPositive | src/analyst/graph.py:81-83 | every bucket the remainder reaches has a non-zero fraction |
| BucketAllocation.Order | src/analyst/graph.py:82 | the stable descending sort: every index once, larger keys first, ties in order |
| BucketAllocation.FillBucketsWithBackfill | src/analyst/graph.py:88-104 | each bucket a prefix of its pool, cut at its target the way the source slices, or longer; in all min(wanted, supply); spare supply used in order of size |
| BucketAllocation.WantedIsTargets | src/analyst/graph.py:88-104 | for targets that are not negative, wanted is the sum of the targets |
| BucketAllocation.ComposeMix | src/analyst/graph.py:107-149 | each bucket a prefix of its pool, at least as long as the smaller of its pool and its own share, which is within one of the weight's proportion and rounded by largest remainder; for percentages and a pool size that are not negative, min(pool size, supply) candidates when there is weight and none otherwise |
| BucketAllocation.RemainderApportions | src/analyst/graph.py:72-85 | largest-remainder counts sum to the pool size, each within one of pool * weight / total, and one rounded up lacked no more to its last slot than one rounded down lacks to one more |
| OptionPick.ParseOptionChain | src/dealer/option_chain.py:101-139 | one row for each object snapshot and no other, in the snapshots' order; direction, strike and expiration come from the symbol; delta, bid, ask, open interest and volume are each the snapshot's own |
| OptionPick.FallbackPick | src/dealer/graph.py:473-520 | the first lexicographic minimum of (distance to the target delta, spread) over the rows on offer, in the row's own numbers; none exactly when no row is on offer |
| OptionPick.EligibleIff | src/dealer/graph.py:483-505 | a row is considered exactly when its direction, delta, date, open interest, volume and quote pass, in plain arithmetic |
| OptionPick.BestIsNearest | src/dealer/graph.py:506-520 | the pick is the row on offer nearest to the target, the smaller spread and then the earlier row breaking ties |
| OptionPick.ReconciledIsGrounded | src/dealer/graph.py:729-762 | a reconciled pick carries the numbers of an observed row with the intended direction |
| OptionPick.SelectContract | src/dealer/graph.py:694-713 | a usable answer of the model decides the contract, with the observed row's numbers; without one the result is the row on offer nearest the target, none exactly when no row is on offer; always grounded |
| OptionPick.TrustedIff | src/dealer/graph.py:715-762 | the model's pick is taken exactly when it points the intended way and so does the first observed row under its symbol, with strike, delta, date and a quote worth more than half a cent; it then keeps its contract and reasoning and carries that row's numbers |
| OptionPick.DecisionIsTrue | src/dealer/graph.py:876-937 | a pick that is not ordered is turned away for a reason that is so of it |
| OptionPick.FallbackPassesGates | src/dealer/graph.py:876-937 | the fallback's pick passes the later date and delta gates, and is ordered exactly when there is a budget and one contract fits the risk |
| OptionPick.OrderedIff | src/dealer/graph.py:876-937 | a pick is ordered exactly when there is a budget, its date and delta lie in the windows, and one contract fits the configured risk |
| OptionPick.OrderWithinRisk | src/dealer/graph.py:917-937 | a sized order stays within the risk budget, maximally |
| OptionPick.TrimHistory | src/dealer/graph.py:456-470 | large older tool results are blanked oldest first, to the first point within the cap; nothing else of any message changes |
| OptionPick.TrimFitsIff | src/dealer/graph.py:457-469 | the result fits exactly when blanking all of them would; no message lost, the last untouched, never larger |
| OccCodec.DealerRoundTrip | src/dealer/option_chain.py:83-91 | writing the fields and parsing them back is the identity |
| OccCodec.DealerAccepts | src/dealer/option_chain.py:19 | accepted are exactly the written symbols with one to six letters, surrounding space aside |
| OccCodec.BrokerRoundTrip | src/floor_broker/execution.py:768-789 | the same round trip for a valid date and any root |
| OccCodec.MatchesEncoded | src/floor_broker/execution.py:768 | every matching text is the writing of its own fields |
| OccCodec.ParsersAgree | src/floor_broker/execution.py:771-789 | where the Floor Broker's parser accepts, the Dealer's does unless the root is longer than six, and they agree exactly up to year 68 |
| OccCodec.KnownCall | src/dealer/option_chain.py:83-91 | both parsers read SPY240119C00450500 as the SPY call of 2024-01-19 struck at 450.50 |
| OccCodec.KnownPut | src/floor_broker/execution.py:771-789 | and the put likewise |

## Left out

- poll failure counters, log text and Slack messages, except where a result counts events.
- check_option_stops: which date or price triggers a sale. A sale may begin at any time with any reason
  in the protocol model, which covers more.
- flatten_all_options, flatten_all_crypto and check_eod_flatten: loops over further sales.
- The stock and crypto fill polls, bracket polls and `sell`, whose state is separate from the options'.
- FloorBroker.FloorBroker.BuyOption: preflight limits, quote and notional cap are one answer, since any of
  them may end a call (`BuyGiveUp`). The stock and crypto preflight is modelled with `buy`.
- Refusing duplicate option BUYs across overlapping calls: two calls that both pass the check before
  either registers can both submit; the never-short result holds regardless.
- FloorBroker.FloorBroker.SellOption: overlapping calls for one contract are excluded by `MaySell`.
- ExactlyOnce.ReportedAtMostOnce: speaks of one process life; after a crash an order may be reported anew,
  and `SecondInsertOnlyWithoutRow` says when its row may be inserted anew.
- NeverShort.NothingSubmittedUnreconciled: for SELLs it rests on `MaySell`.
- SaleLimits.SaleShortIffUnwatched: nothing else runs during the call.
- RestartAttempt.FreshAttemptBalancedIff: of the rest of the world only the venue moves during the attempt;
  `RestartBalancedIff` is the form with the fill poll and failed attempts.
- Reconcile.AttemptsConfluent: a later attempt whose best-effort crypto step raises earlier than the
  first attempt's may set fewer crypto stops than that one did.
- Opening.OpenedIsBalanced: no sale of the contract before its BUY is over.
- ExitConservation.ExitConserved: no lost database write and no crash; `CrashDuringExit` says what a crash
  does.
- SQL, connection pools and the columns of options_trades that no rule reads (reasoning, cycle id, times).
- Floating point: money is `real`, rounding is to nearest with ties to even.
- OccCodec.DealerAccepts: digits and white space are ASCII here; Python's patterns also take other
  decimal digits, and strip takes other white space.
- OptionPick.ParseOptionChain: JSON and its envelope; a chain arrives as its snapshots.
- Date parsing: a parameter of the option pick.
- The gates of call_floor_broker_option before the budget (macro blackout, cooldown, win-rate throttle).
- Indicators, Sharpe ratio and OHLCV features: library float code. A strategy is any function of the
  bar, whether a position is open, and whether the bar is the first.
- Metrics.DrawdownIsDeepestFall: on a curve that reaches zero the source divides by zero.
- HTTP, MCP, LLM calls, Kubernetes, the power scheduler, kill switch polling, configuration caching.
