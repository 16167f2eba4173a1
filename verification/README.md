# Verified model of the trading bot's core

This project models, in Dafny, the parts of the futures trading bot that decide about money and about durability, and
proves what they keep over whole runs. `dafny verify dfyconfig.toml` checks everything. Each module answers to one
part of the program.

**The engine and its durable shadow**

- `EngineTypes`, `EngineModel`: every public call of the engine as a function of its state: pending entry, one
  position, wallet, stop and trailing stop, funding, liquidation, partial exits, entry blocks, PAPER and LIVE. The
  exchange's answers in LIVE are scripts, any answer and any failure included.
- `EngineObject`: the engine as the object it is. Every method updates the fields in place and is proved to do exactly
  what the function of the same name says, so that the theorems below are about the object.
- `Accounting`, `WalletRuns`: the events of a call, folded, give the position and the wallet the engine holds. A call that
  raises has its events too; they are lost to the caller, and the theorems say exactly when that matters.
- `EntryRules`: when a request is taken and a pending entry skipped, refused or filled, and what the fresh position is.
  `ExitPrices`: at which price a held PAPER position is closed, and when. `LiveRules`: the same questions in LIVE, where the
  exchange's answers decide what is held and whether entries stay allowed.
- `PaperRuns`: laws of a held PAPER position: cost of a liquidation, trailing stop, no look-ahead. `LiqPrices`: the
  liquidation price it is judged by, over fundings, entries and restarts.
- `FundingClock`: funding boundaries over the ticks of one process life, feed gaps and times that go back included.
- `Rows`, `RowLedger`, `Restore`: the database rows the events become, and how a position is read back from them.
- `Runtime`, `RuntimeObject`: the write-behind queue, failing transactions, crashes and restarts. `Purses`: the wallet across
  all of these. `EntryGate`: the one gate in front of the engine.
- `FundingRuns`: funding boundaries across crashes: how often the rows list each of them. `Witnesses`: concrete runs from a
  first start in which something of this goes wrong.
- `SafetyGate`, `TripProtocol`: kill switch, reconciliation guard, and the breadcrumb protocol that keeps a trip and the
  operator log through database failures and crashes.

**The back-test drivers over the same engine**

- `Replay`: the per-minute replay and the independent ledger check. `ReplayEntries`: which intents it takes up. `Placebo`: the
  placebo executor, proved to simulate the replay.

**Fast forms against simple definitions**

- `Segments`, `EligibleIndex`, `Placement`: lazy indices of entry minutes and the interval occupancy set.
  `Bisect` and `Sorting` state the two library routines they use.

**Order arithmetic and small state machines**

- `Normalize`, `Steps`: step rounding, splitting, order construction. `Brackets`: margin brackets and the liquidation
  estimate. `Delivery`: silence monitoring. `Shards`: the bounded-queue recorder. `Confirmations`: the command bot.

Conventions. Money and prices are `real`; ticks and steps are explicit roundings; times are milliseconds as `int`.
A `bool` or `nat` argument that says whether a transaction, a deletion or a message succeeded ranges over all values,
so that a theorem over a run covers every pattern of failures. Functions whose results are contents of a
configuration (`size`, `liquidation`, `gate`, `leverageCap`) are arbitrary, but for what sizing owes its caller: it refuses a
price, a stop or an equity that is not positive, answers for the stop it was asked about, calls that stop wrong exactly if
it is not on the losing side of the price, and accepts only a stop on the right side, with a leverage
(sizing/position.py:154-155, 178-180).

## Where the code falls short of its description

Some statements hold only under a condition. Each has the exact condition, proved for all inputs, and an input or a run
that breaks it.

- A boundary reported in a batch without a snapshot is reported again after a crash. `FundingMissed` is not among the
  events that take a snapshot, so the restart goes back past it: exactly if no batch with a snapshot was committed in
  between and the first tick does not raise (`FundingRuns.ReportedAgainIff`); two restarts list 08:00 twice
  (`Witnesses.ListedTwice`). A settlement still queued at a crash is written by nobody and reported as missed by the first
  tick afterwards (`FundingRuns.QueuedIsMissed`).
- A call that raises tells nobody what it had done. In LIVE an exit adopts the exchange's quantity and may then raise,
  because it is off the step; the rules error is not caught there. Rows and engine stay in agreement if and only if the
  guard `RaiseKeepsQty` holds: the exchange's answer was missing or the engine's own quantity, or, for an entry, nothing
  had been booked (`RowLedger.RaisedRowsIff`, `RowLedger.ExitRaisesIff`, `RowLedger.RaisedCloseDisagrees`). What the call
  takes from the wallet unseen is `UnseenCost`, worked out from the state before it and the exchange's answers: on a held
  position the funding of its tick and the fee on quantity found in excess, on a flat engine what the entry costs once it
  has booked (`WalletRuns.RaisedWalletIff`, `RowLedger.RaisedEntryCost`, `WalletRuns.RaisedCloseCosts`). Over a run the told
  events account for the wallet if and only if these costs add up to zero (`WalletRuns.WalletConserved`). In PAPER, on a
  position on its step, no raising call changes position or wallet (`WalletRuns.PaperRaisedWallet`).
- After a restart under rules whose step does not divide the open quantity, every exit of that position raises, and what
  its tick had settled before goes untold. The rows then lack exactly that funding, and the next restart gives the
  position up if and only if the last snapshot holds such a funding (`Runtime.CrashConsistency`, `Runtime.NeverMismatch`);
  without such a tick nothing is ever lacking (`Runtime.NothingUnsaid`, `Runtime.TickOutcome`, `PaperRuns.OffStepTick`). A
  day that ends so: `Witnesses.UnsaidBreaksTheRestart`. The rows list every boundary but those such ticks swallowed
  (`FundingRuns.FundingAccounted`, `FundingRuns.NothingSwallowed`).
- A wallet of exactly zero is taken for none: a restart puts the configured capital in again if and only if nothing was saved
  or the wallet saved was zero (`Purses.RestartWallet`); a crash of the price that takes the whole wallet is such a run
  (`Witnesses.ZeroWalletIsRefilled`).
- The rows agree with the engine after a synchronisation exactly when nothing of the position had been closed before
  (`Rows.SyncMirrorsIff`, `RowLedger.SyncAfterReduceDisagrees`): the sum of closes is subtracted from the newest row.
- An operator event is absent from both the database and the breadcrumb during a restart exactly when the breadcrumb
  was set aside and the event was in it alone; a crash in that window loses it
  (`TripProtocol.RestartHolds`, `TripProtocol.QuarantineWindowLosesOps`, `TripProtocol.QuarantineIsReachable`).
- A breadcrumb whose deletion fails can undo a trip or bring a released one back. A restart finds the switch in memory if
  and only if the file was gone, or the id comparison sets it aside, or it carries the same trip
  (`TripProtocol.FailedUnlinkIff`). Two runs from a first start break it (`TripProtocol.FailedUnlinkWithoutRowLosesTrip`,
  `TripProtocol.FailedUnlinkRevivesTrip`).
- The shutdown record says "stop" although rows are gone, exactly if a roll of that kind failed in mid-run on a buffer
  that held rows, before its file was in place (`Shards.CleanStopIff`, `Shards.RollFailureIsHidden`).
- The index of eligible minutes lists each once; it is the simple list exactly when no eligible minute is given twice
  in the grid (`EligibleIndex.OnceIsSimpleIff`, `EligibleIndex.RepeatedMinute`).
- The live silence monitor counts an event unless its minute lies behind both kept buckets on arrival; it agrees with the
  replay of the files exactly if none of the judged minute was missed, or that minute does not decide
  (`Delivery.LiveCountIff`, `Delivery.LiveEqualsReplayIff`, `Delivery.LateEventsDiffer`).
- When tick times go back, a boundary is settled or reported once per upward crossing (`FundingClock.OncePerCrossing`);
  a tick past 08:00, one from before it and another past it charge it twice (`Witnesses.SettledTwice`).
- With repeated nonces an old button answers a new question; in every run the closings under a nonce are at most the
  questions asked under it (`Confirmations.ClosingsPerQuestion`, `Confirmations.RepeatedNonceAnswersAnother`).
- A liquidation price solves the margin equation of its row; that row's margin is the largest at that notional if and only
  if the notional has reached the upper bound of every earlier row with a lower rate (`Brackets.LargestIff`). On a table of
  two rows a long of 150 at leverage two is liquidated by the second row's formula at 81.25, where the first row asks for
  more (`Brackets.RowLeftBehind`).
- The last order of an entry split is topped up to a minimum quantity that need not be a step multiple. Exactly then the
  parameter check rejects the order that the split was meant to make sendable (`Normalize.SplitEntry`,
  `Normalize.EntryOrdersComplete`, `Normalize.TopUpIsRejected`).

## Model

| member | source | states |
|---|---|---|
| Normalize.AdverseFillIsAdverse | paper/sender.py:78-85 | A paper fill is a tick multiple, never better than the mark for its side, and less than one tick beyond the slipped mark. |
| Normalize.FloorAndNext | exchange/normalize.py:51-53 | The rounded quantity and the next one are step multiples that enclose the request. |
| Normalize.AcceptedEntryQty | exchange/normalize.py:78-100 | An accepted quantity clears both minima; it is the request rounded down, or one step more and then within the caller's budget; a refused one misses a minimum and the step up would not help within the budget. |
| Normalize.SplitMarketQty | exchange/normalize.py:103-128 | The loop with its in-place repair computes the split the next three rows speak of; it needs only that the largest order holds one step. |
| Normalize.GreedyShape | exchange/normalize.py:111-116 | The cut sums to the quantity, all but the last order have full size, the last is positive and no larger; there is one order exactly if it fits. |
| Normalize.SplitExit | exchange/normalize.py:107-118 | A reduce-only split never fails, sums to the floored quantity, and every order passes the parameter check. |
| Normalize.SplitEntry | exchange/normalize.py:117-128 | An entry split is refused if and only if the last two orders cannot both reach the minimum; otherwise the sum is kept and, when there are several orders, each reaches the minimum; every one is sendable if and only if none was topped up to a minimum off the step. |
| Normalize.NeedCoversMinimum | exchange/normalize.py:121 | An order that reaches that minimum is worth the minimum notional at the reference price and meets the minimum quantity. |
| Normalize.OrdersNeverRejected | exchange/orders.py:65-92 | From acceptable quantities every order is built, on the side and with the reduce-only flag of its intent, and together they move the summed quantity. |
| Normalize.EntryOrdersComplete | exchange/orders.py:95-101 | For every quantity, price and rules, each error is raised exactly for its reason: a value that is not positive, a refused quantity or such a top-up, steps that do not fit or a refused split; otherwise the orders move exactly the normalised quantity in the direction of the entry. |
| Normalize.OrdersRejected | exchange/orders.py:76-92 | One quantity the parameter check rejects, and no order is built. |
| Normalize.OrdersIff | exchange/orders.py:65-92 | Orders are built if and only if every quantity is positive, no more than the largest order and a whole number of steps; then one for each, in order, with the side and flag of the intent. |
| Normalize.TopUpIsRejected | exchange/normalize.py:121-128 | Such rules and such a quantity: the split is accepted and the order rejected. |
| Normalize.CloseOrdersNetToZero | exchange/orders.py:104-109 | Closing succeeds if and only if the position is a nonzero multiple of a step that fits, and then brings it to zero with reduce-only orders on the opposite side. |
| Brackets.BracketForNotional | exchange/rules.py:113-120 | Returns the first row whose range holds the notional; fails exactly if none does or the notional is negative. |
| Brackets.OneRowHolds | exchange/rules.py:197-215 | In an accepted table without reversed rows a notional inside the range is in exactly one row, outside in none. |
| Brackets.LeverageFalls | exchange/rules.py:197-215 | In such a table a larger notional never allows more leverage. |
| Brackets.MarginStep | exchange/rules.py:205-213 | Neighbouring rows give the same margin at their boundary, and the upper row's is the larger one exactly above it. |
| Brackets.MarginIsMaximum | exchange/rules.py:197-215 | In such a table the margin of the row that holds a notional is the largest any row's formula gives. |
| Brackets.ReversedRow | exchange/rules.py:197-215 | A table with a row that ends before it begins is accepted, and there two rows hold one notional and the one the lookup finds asks for less. |
| Brackets.MarginRateGrows | exchange/rules.py:197-215 | In such a table margin divided by notional never falls as the notional grows. |
| Brackets.LiqNotionalSolves | sizing/position.py:113-124 | The closed form is the root of the margin equation of its row: there the isolated wallet and the loss leave exactly the maintenance margin. |
| Brackets.RootSide | sizing/position.py:113-124 | The excess over the margin has the sign the direction demands on either side of that root. |
| Brackets.NextIterate | sizing/position.py:115-131 | Following the liquidation notional to its row never turns back: up only for a long, down only for a short. |
| Brackets.ShortStaysAbove | sizing/position.py:115-131 | A short that left its entry row upwards never comes back below that row's upper bound. |
| Brackets.LiquidationEstimate | sizing/position.py:107-131 | On every accepted table without reversed rows and with rates below one (for a short above minus one) the loop ends without the oscillation error, and at the notional of a price it returns the isolated wallet and the loss leave exactly the margin of its row. That row holds the larger of this notional and the entry notional, where its margin is the largest of all rows; at the liquidation notional itself exactly under the condition of `LargestIff`. |
| Brackets.HighRateOscillates | sizing/position.py:115-131 | An accepted table with a rate above one on which the loop goes from the first row to the second and back. |
| Brackets.LargestIff | exchange/rules.py:197-215 | Up to its upper bound a row's margin is the largest of all rows if and only if the notional has reached the upper bound of every earlier row with a lower rate. |
| Brackets.RowLeftBehind | sizing/position.py:115-131 | Whatever estimate is found for that long names the second row and a notional below it, where the first row's margin is larger. |
| Brackets.RowLeftBehindFound | sizing/position.py:115-131 | And there is such an estimate. |
| EngineModel.GoodPrefix | paper/engine.py:463-469 | Exactly the chunks before the first refused one are sent. |
| Accounting.OnTickAccounted | paper/engine.py:235-260 | After any tick in either mode, with any answers of the exchange and also if it raises, the events collected give the position held when folded and the wallet when summed, and every wallet printed on one is the true one; in PAPER a call without a snapshot event changes nothing a snapshot holds. |
| Accounting.OnBarAccounted | paper/engine.py:263-276 | The same for a bar. |
| Accounting.OtherCallsAccounted | paper/engine.py:279-309 | The same for funding, gap liquidation, manual close, vanish, wallet sync and cancel. |
| Accounting.ExitAccounted | paper/engine.py:621-695 | The same for an exit: full, partial, failed, after a loss or gain of quantity at the exchange. |
| Accounting.OpenAccounted | paper/engine.py:452-524 | The same for an entry: full, partial, adopted from the exchange, or closed at once by the gate. |
| WalletRuns.WalletConserved | paper/engine.py:356-361 | Over every run of either mode, raising calls included, wallet = start less entry commissions less funding plus realised profit net of exit commissions plus resynchronisations of the events told, less the cost of the raising calls, which is what the lost events would have said; so the told ones account for it if and only if that cost is zero. |
| WalletRuns.RunAccounted | paper/engine.py:402-409 | Over every run, every wallet value stamped on an event, told or lost, is the wallet at that moment. |
| WalletRuns.RaisedWalletIff | paper/engine.py:643-668 | Every call that raises, held or flat, takes from the wallet exactly the cost worked out from the state before it and the exchange's answers, and leaves the wallet alone if and only if that is zero. |
| WalletRuns.RaisedCloseCosts | paper/engine.py:643-668 | Such a call: long 1 with step 1, the exchange holds 1.5 at 100, closing raises and the fee on the half more is gone. |
| WalletRuns.PaperRaisedWallet | paper/engine.py:447-472 | In PAPER, a position held being on its step, a raising call leaves the wallet alone. |
| WalletRuns.PaperWalletConserved | paper/engine.py:402-409 | Over every PAPER run, refused requests and all other raising calls included, the told events alone account for the wallet and carry true stamps. |
| PaperRuns.PaperExitFills | paper/sender.py:92-123 | A paper exit fills the whole quantity at one price, the adverse quote, with the taker fee on it. |
| PaperRuns.PaperExitCloses | paper/engine.py:664-680 | A paper exit of an on-step position never fails: one close event for the whole quantity and no position left. |
| PaperRuns.StakeAtEntry | paper/engine.py:489-511 | A fresh paper position stakes the wallet before the entry (or the fixed capital), has paid no funding, and is a step multiple. |
| PaperRuns.SurvivingRun | paper/engine.py:402-409 | Over any run it survives, the trade stays the same and wallet plus commission plus funding stays what it was. |
| PaperRuns.JudgeHeld | paper/engine.py:564-619 | A judgement either keeps wallet and trade and moves only the stop, or closes once; liquidation happens if and only if the range reaches the liquidation price. |
| PaperRuns.LiquidationCostIsPathIndependent | paper/engine.py:607-619 | Whatever funding was paid or received, a liquidated position costs its margin plus the fee: the wallet left is the wallet before the entry less that cost. |
| PaperRuns.TrailedStopClosedForm | paper/engine.py:585-605 | After any surviving run the stop is the tightest of the initial one and all candidates since arming, arming is at the first gain of the set size, and it has moved exactly if it differs. |
| PaperRuns.StopOnlyTightens | paper/engine.py:585-605 | From any point of a run to any later one the stop never loosens. |
| PaperRuns.StopJudgedFromThePast | paper/engine.py:252-276 | A tick or a bar is judged by the stop the earlier steps left: it survives only clear of that stop and of the liquidation price, and a trailed exit means it reached that stop. |
| PaperRuns.OffStepTick | paper/engine.py:252-259 | A paper tick on a held position raises if and only if it would have to exit and the quantity is off the step, and then it has done nothing but settle the funding due. |
| EntryRules.RequestIff | paper/engine.py:204-232 | A request is taken, and pending, exactly if the engine is flat, unblocked and has nothing pending, leverages lie in the limits, stop and rule agree, a trail has positive terms, and there is one target at most, with positive terms or beyond the mark; otherwise it raises and changes nothing, as an error rather than a refusal exactly if the engine was available and the intent malformed. |
| EntryRules.EntryDecided | paper/engine.py:433-472 | In both modes and for both directions: an entry gets as far as sizing exactly if the mark is still on the winning side of the stop, which is the intent's, the anchor, or as far beyond the quote as the anchor is short of it; then sizing, the exchange's echo of the leverage in LIVE, and only then orders. |
| EntryRules.QuoteIsAlive | paper/engine.py:437-447 | A positive mark clear of the stop is quoted clear of it as well, slippage and rounding included. |
| EntryRules.PaperFilled | paper/engine.py:474-491 | A PAPER entry fills the leading chunks the parameter check passes, all at the quote, and a refused one blocks entries. |
| EntryRules.PaperEntry | paper/engine.py:433-544 | The exact condition of each skip, of the exception and of an opening; the fresh position with its target and trail worked out from the actual fill; it stays exactly if the stop, the gate and the leverage cap hold for what was filled, and is closed at once at the mark otherwise. |
| Witnesses.ShortIsOpened | paper/engine.py:445-446 | A short stopped at 110 with the mark at 100 is opened. |
| Witnesses.LateShortIsSkipped | paper/engine.py:445-446 | A short stopped at 90 with the mark at 100 is skipped. |
| ExitPrices.ExitClosesAt | paper/engine.py:664-680 | A paper exit closes the whole quantity at one price, worse than its reference by the slippage and less than one tick of rounding, with the result and the taker fee on it. |
| ExitPrices.EvaluateCases | paper/engine.py:564-583 | Liquidation goes before the stop and the stop before the target, each exactly if the range reaches it in its direction. |
| ExitPrices.BarClosesAt | paper/engine.py:263-276 | After any surviving run a bar that reaches the stop closes at the worse of stop and open, one that reaches only the target at the target, and any other leaves position and wallet alone. |
| ExitPrices.TickClosesAt | paper/engine.py:252-259 | A tick closes at the mark, after the funding due. |
| ExitPrices.GapClosesAt | paper/engine.py:284-294 | A gap liquidates exactly if the open is at or beyond the liquidation price, and changes nothing otherwise. |
| LiqPrices.LiqPriceOverRun | paper/engine.py:402-419 | Along a surviving run the liquidation price is the estimate for the rate that adds the funding paid to the taker fee, at the last funding total for which there is an estimate. |
| LiqPrices.LiqPriceIsRight | paper/engine.py:329-354 | After any run of the bot, entries, settlements, failures and restarts under any PAPER rules, the price a position is judged by is that estimate by the rules of now. |
| LiveRules.LiveExit | paper/engine.py:621-695 | A LIVE exit drops a position the exchange no longer has and leaves one on the other side alone, without an order; otherwise it holds the exchange's quantity, pays the fee on what came to light, is filled as far as the orders were, each fill at its own price and commission, and raises exactly for an off-step quantity; entries stay allowed exactly if the exchange confirmed everything. |
| LiveRules.LiveEntry | paper/engine.py:433-562 | A LIVE entry sends orders exactly if stop, size and echoed leverage allow it; it holds what was filled, or all the exchange shows after a failure if that is more, at its price and with its fee; entries stay allowed exactly if every order was answered and quantity and liquidation price were confirmed. |
| LiveRules.AveragePays | paper/engine.py:165-168 | The price an entry is held at pays for exactly its fills. |
| LiveRules.LiveEvaluate | paper/engine.py:564-583 | LIVE warns once when the range reaches the liquidation price, never liquidates, and then judges the stop before the target. |
| FundingClock.GridIsKept | paper/engine.py:389-392 | A tick whose announced funding time is no multiple of the interval raises before anything else and changes nothing; any other is remembered. |
| FundingClock.GridMember | paper/engine.py:394-400 | The boundaries counted are exactly the grid points of the interval, strictly ascending. |
| FundingClock.TickHandles | paper/engine.py:235-251 | One tick disposes of exactly the boundaries from the next undisposed one up to its time. |
| FundingClock.EveryBoundaryOnce | paper/engine.py:235-257 | Over the ticks of one process life, fresh or restored, whose times do not go back, every boundary crossed with a position held is settled or reported missed exactly once, in order, none left out. |
| FundingClock.OncePerCrossing | paper/engine.py:245-246 | In any order of tick times a boundary is settled or reported once per upward crossing. |
| FundingRuns.CommitLists | db/record.py:346-355 | While a position is open, its closing batch included, each committed batch goes on listing the boundaries in its rows without a gap but for those raising ticks had swallowed before it. |
| FundingRuns.FundingAccounted | ops/runtime.py:355-417 | After any run, restarts under any PAPER rules, any failing transactions and any crashes, the open position's rows list every grid point from the first after its entry to the next boundary once, and once more for every restart that went back past it, less what raising ticks swallowed; exactly those after the stored snapshot are still unsaved, and what was settled is listed once for ever. |
| FundingRuns.NothingSwallowed | paper/engine.py:252-259 | Over a run in which no tick raises after disposing of a boundary nothing is swallowed. |
| FundingRuns.ReportedAgainIff | ops/runtime.py:81-82 | A boundary disposed of in a batch without a snapshot is listed again by the first tick after a crash and a restore if and only if no batch with a snapshot was committed before the crash and that tick does not raise. |
| FundingRuns.QueuedIsMissed | ops/runtime.py:379-393 | A boundary settled or reported in a batch still queued at the crash is written by nobody; the first tick after the restore settles nothing, finds it missed and, unless it raises, lists it so. |
| Witnesses.ListedTwice | paper/engine.py:241-244 | A run from a first start, entry and two restarts: the rows of the one position list the same boundary twice, and nothing of it was charged. |
| Witnesses.UnsaidBreaksTheRestart | paper/engine.py:252-259 | A run from a first start, entry, restart under a coarser step, a tick that settles funding and raises at the stop, a bar's snapshot: rows and snapshot differ by the funding, and the next restart gives the position up. |
| Witnesses.SettledTwice | paper/engine.py:245-246 | A run from a first start whose tick times go back over one boundary: two settled rows for it, and the wallet pays twice. |
| Rows.FindOpen | db/record.py:210-221 | The root found is the newest one with something left. |
| Rows.OpenPositionId | db/record.py:210-221 | The search loop returns the newest root of that direction with something left, and nothing exactly if there is none. |
| Rows.MirrorFindsRoot | db/record.py:192-221 | When the rows mirror a ledger position the search finds its root, its direction and its remaining quantity. |
| Rows.OpenMirrors | db/record.py:224-246 | An entry's row opens a new root that mirrors the position. |
| Rows.CloseMirrors | db/record.py:277-301 | A close row, full or partial, shrinks the remaining quantity by exactly what was closed. |
| Rows.SyncMirrorsIff | db/record.py:255-265 | After a synchronisation row the rows say its quantity less all earlier closes: they are right if and only if nothing had been closed. |
| Rows.SyncJoinsOrOpens | db/record.py:255-265 | A synchronisation row joins the open root of its direction, and is a root itself where there is none. |
| Rows.EventsMirror | db/record.py:313-369 | A whole batch of events moves the rows exactly as it moves the ledger. |
| RowLedger.CallAccounted | paper/engine.py:204-374 | Every public call, in both modes and whether it raises or not, moves the ledger of its events as it moves the position. |
| RowLedger.ExitRaisesIff | paper/engine.py:643-668 | An exit raises if and only if the quantity it goes on to close, the exchange's answer if there is one, is off the step; by then it holds that quantity and has booked the fee on the excess. |
| RowLedger.RaisedQtyIff | paper/engine.py:643-668 | A raising call keeps direction and quantity if and only if its guard holds: in PAPER always, on a LIVE position if the exchange's answer was missing or equal, without a position if no entry was booked. |
| RowLedger.RaisedEntryCost | paper/engine.py:494-524 | A LIVE entry that raises has cost nothing if it was not booked, and otherwise its commission and the fee on quantity the gate exit found in excess. |
| RowLedger.RowLedgerAgrees | db/record.py:192-221 | Over any run, LIVE and raising calls included, after every call the database's signed quantity is the engine's, provided each raising call meets its guard and no synchronisation follows a close of the same position. |
| RowLedger.RaisedRowsIff | notify/bot.py:170-174 | The guard is exact: after any such run a further call that raises leaves rows and engine in agreement if and only if it holds. |
| RowLedger.RaisedCloseDisagrees | paper/engine.py:643-668 | Such a call: long 1 with step 1, the exchange answers 0.5, closing raises and the engine goes on with 0.5. |
| RowLedger.SyncAfterReduceDisagrees | db/record.py:192-198 | The proviso is needed: after a partial close and a synchronisation the database is short by exactly the closed quantity. |
| Restore.ReadBack | ops/restore.py:58-101 | The position rebuilt from the rows has the ledger's direction, quantity, entry, leverage, stop, target, commission, funding, opening time and trail. |
| Restore.EventFullyMirrors | db/record.py:324-369 | Each event's rows keep every recorded field readable: position, funding and trail tables together. |
| Restore.DecideIff | ops/restore.py:115-164 | On any database a position is restored exactly if the last snapshot holds, field by field, the record the rows give, with a next boundary, this arithmetic and a stamp not before the entry; no position exactly if neither has one. |
| Restore.DecisionIff | ops/restore.py:115-164 | With rows showing the ledger and the snapshot the same but for a funding no row tells, the decision is a mismatch if and only if that funding is not zero or the snapshot is stamped before the entry or computed with another arithmetic. |
| Runtime.CommitKeeps | db/record.py:313-321 | Committing the oldest batch, events and snapshot in one transaction, moves the durable position by exactly that batch. |
| Runtime.RecordKeeps | ops/runtime.py:379-393 | Recording, directly or behind unwritten batches, keeps rows and queue consistent. |
| Runtime.FlushWrites | ops/runtime.py:408-417 | A database that answers is written up to date: the oldest batches, each once and in order. |
| Runtime.TickOutcome | paper/engine.py:235-260 | A paper tick never loses a position silently: if it raises, every recorded field of the position stays, if and only if it had not settled a funding before; a position on its step is untouched, and nothing but funding was collected. |
| Runtime.DeliverKeeps | ops/runtime.py:355-393 | Handing over the events of any accounted call keeps the invariant, whether the database accepts them or not. |
| Runtime.RebootKeeps | ops/restore.py:199-238 | A restart, with any transaction failing in it, keeps it as well. |
| Runtime.CrashConsistency | ops/restore.py:115-164 | After any run, restarts under any PAPER rules, any failures and a crash anywhere, the rows rebuild the position held at the last committed batch, exactly but for the funding raising ticks had settled untold; the decision is a mismatch exactly if an abandoned position lacks its flat snapshot or the snapshot holds such a funding or its stamp or arithmetic contradicts the entry. |
| Runtime.NeverMismatch | ops/restore.py:115-164 | With one clock, one arithmetic and estimates that do not fail on restart the decision is a mismatch exactly if the last snapshot holds such a funding: otherwise the held position comes back, a flat bot starts flat. |
| Runtime.AbandonedIsGone | ops/restore.py:199-238 | After any run a restart that cannot restore the position is flat, and once its batches are written, at once or by later retries, the database has none either and no restart finds a mismatch again. |
| Runtime.NothingUnsaid | paper/engine.py:252-259 | Over a run in which no tick raises after settling a funding nothing is ever unsaid. |
| Purses.RestartWallet | ops/run_bot.py:349 | After any run, failures and a crash anywhere, a restarted bot has the wallet the engine held when the last committed batch with a snapshot was emitted, or the configured capital if there is none or that wallet was zero. |
| Purses.WalletAcrossRestarts | ops/run_bot.py:268-271 | Across all restarts the wallet saved is the capital put in, less the funding raising ticks took unseen, plus what every committed event tells; so is the engine's own, with the events still waiting. |
| Purses.EverythingTold | ops/runtime.py:379-417 | Over one process life, whatever the database refused, what is committed and then what waits is every event the calls handed over, each once and in order. |
| Witnesses.ZeroWalletIsRefilled | ops/run_bot.py:349 | A run from a first start that ends with a wallet of zero; the restart has the configured capital again. |
| EntryGate.GuardedIsRun | ops/runtime.py:180-199 | Every run through the gate is a run of the bot, so that all theorems on runs hold behind it. |
| EntryGate.EntryPassesTheGate | ops/runtime.py:163-199 | Over every run, crashes included, a mark that fills an entry finds the gate open, and the entry was submitted through the open gate, which every mark and second since has found open too. |
| EntryGate.SubmittedIff | ops/runtime.py:180-185 | A submission is taken if and only if nothing blocks and the engine welcomes it, and changes nothing else. |
| EntryGate.StartLetsIn | ops/runtime.py:640-656 | After a person's start a flat engine with nothing unwritten takes a welcome intent again, whatever had blocked it. |
| EntryGate.CallKeepsBlocks | paper/engine.py:363-367 | In both modes and whatever the exchange answers, no call but the clearing removes a block, and none lists one twice. |
| EntryGate.VanishBlocks | paper/engine.py:301-309 | A position the exchange has dropped is given up and leaves a block behind. |
| EntryGate.BlockedOpensNothing | ops/runtime.py:163-199 | Once the engine is blocked no mark fills an entry until a person starts it again, restarts that are handed the saved blocks included. |
| RuntimeObject.RecordEvents | db/record.py:313-369 | Writing row by row gives the one durable state the transaction stands for. |
| RuntimeObject.BotRuntime.RecordBatch | ops/runtime.py:379-393 | Behind an unwritten batch nothing is written directly; a refused batch joins the end of the queue. |
| RuntimeObject.BotRuntime.RetryUnrecorded | ops/runtime.py:408-417 | The retry loop writes the queue from the front and stops at the first failure. |
| RuntimeObject.BotRuntime.HandleEvents | ops/runtime.py:355-377 | One batch for one engine call: events, the target of a fresh entry, and a snapshot if a recorded field changed. |
| RuntimeObject.BotRuntime.Start | ops/run_bot.py:349-382 | A start on a database an earlier life left: the fields of the restarted bot, with the wallet of the last snapshot. |
| RuntimeObject.BotRuntime.OnMark | ops/runtime.py:187-199 | A mark: a pending entry is cancelled while the gate is closed, then engine tick and one batch, or nothing handed over if it raised. |
| RuntimeObject.BotRuntime.SubmitEntry | ops/runtime.py:180-185 | Refused exactly while something blocks; otherwise the engine is asked. |
| RuntimeObject.BotRuntime.SafetyTick | ops/runtime.py:286-331 | The retry, the close of a position whose streams are silent, then the gate, in this order. |
| RuntimeObject.BotRuntime.ApplyRestore | ops/restore.py:199-238 | Restores, or abandons the database's position and writes a flat snapshot when the decision or the restore fails: the state a restart of the model goes on from. |
| EngineObject.Engine.RequestEntry | paper/engine.py:204-232 | The object accepts or refuses an intent as the model does, and changes only the pending entry. |
| EngineObject.Engine.OnTick | paper/engine.py:235-260 | New state and events are the model's for every tick: funding, entry, judgement, trail, in that order. |
| EngineObject.Engine.OnBar | paper/engine.py:263-276 | The same for a bar, judged by the stop before the bar. |
| EngineObject.Engine.OnFunding | paper/engine.py:279-281 | The same for a funding settlement; the position object stays the same one. |
| EngineObject.Engine.LiquidateIfOpenBeyond | paper/engine.py:284-294 | The same for an open beyond the liquidation price; LIVE raises. |
| EngineObject.Engine.CloseNow | paper/engine.py:297-298 | The same for a manual or timed close. |
| EngineObject.Engine.Vanish | paper/engine.py:301-309 | The same for a position the exchange no longer holds. |
| EngineObject.Engine.SyncWallet | paper/engine.py:356-361 | Only the wallet changes, and the event says from what to what. |
| EngineObject.Engine.ClearBlocks | paper/engine.py:363-366 | All blocks are lifted and returned. |
| EngineObject.Engine.CancelPending | paper/engine.py:369-374 | Only the pending entry goes, with one event if there was one. |
| EngineObject.Engine.RestorePosition | paper/engine.py:329-354 | The snapshot's position is taken over with a recomputed liquidation price, or the call raises and changes nothing. |
| EngineObject.Engine.FundingOnTick | paper/engine.py:236-251 | Settles what the last tick announced and reports what nobody announced. |
| EngineObject.Engine.SettleFunding | paper/engine.py:402-419 | Wallet and funding paid move by the same amount, and the liquidation price is refreshed if it can be. |
| EngineObject.Engine.Liquidate | paper/engine.py:607-619 | The remaining margin and the fee leave the wallet, and the position is gone. |
| EngineObject.Engine.ExecuteEntry | paper/engine.py:433-524 | The entry path: skipped, refused, filled in part or whole, adopted, or closed at once by the gate. |
| EngineObject.Engine.SendPaper | paper/engine.py:463-469 | The sending loop fills exactly the chunks before the first refused one. |
| EngineObject.Engine.AdoptLarger | paper/engine.py:474-488 | After a failed LIVE entry a larger same-side exchange position is adopted, any other difference blocks. |
| EngineObject.Engine.RecordEntry | paper/engine.py:494-519 | Wallet and position after the fill, and the events in their order. |
| EngineObject.Engine.LiveCheck | paper/engine.py:546-562 | The LIVE check after an entry only adds blocks. |
| EngineObject.Engine.Exit | paper/engine.py:621-695 | The whole exit path in both modes. |
| EngineObject.Engine.ExitAgainst | paper/engine.py:631-663 | LIVE: nothing there, the opposite side, or another quantity of the same side, each handled before sending. |
| EngineObject.Engine.ResyncQty | paper/engine.py:643-663 | The engine's quantity becomes the exchange's, with the fee of what was added or a vanish of what was missing. |
| EngineObject.Engine.BookExit | paper/engine.py:671-686 | Fills that cover the position close it, fewer reduce it. |
| EngineObject.Engine.Evaluate | paper/engine.py:564-583 | Liquidation before stop before target. |
| EngineObject.Engine.Judge | paper/engine.py:256-259 | Evaluate, then trail if the position is still there. |
| EngineObject.Engine.Trail | paper/engine.py:585-605 | Arms and tightens the stop after the judgement. |
| SafetyGate.TripHoldsUntilStart | safety/killswitch.py:61-122 | A trip and its first reason stay through every event, mark, comparison, pause and refused start. |
| SafetyGate.CounterIsStreak | safety/killswitch.py:67-88 | The counter is the length of the losing streak at the end of all closes, measured against the wallet when last flat. |
| SafetyGate.UntrippedMeansBelowLimits | safety/killswitch.py:67-88 | An untripped switch is below all three limits, and one that tripped had reached one at that event. |
| SafetyGate.DailyLossIff | safety/killswitch.py:101-109 | Over one UTC day the switch trips if and only if some equity has lost at least the set share of the day's first one. |
| SafetyGate.EventsTripIff | safety/killswitch.py:67-88 | Events trip the switch if and only if one of them is a vanished position, a liquidation, or a close that makes the losing streak too long. |
| SafetyGate.FlatWalletIs | safety/killswitch.py:67-94 | Trades are measured from the wallet of the last close or resynchronisation, whatever happened in between. |
| SafetyGate.StartLifts | safety/gate.py:70-89 | A start on the UTC day of a daily-loss trip changes nothing at all; any other lifts pause, trip, comparison and notices, forgets the counts of a trip, and keeps the day's line and the flat wallet. |
| SafetyGate.GateIff | safety/gate.py:34-89 | Over any run the gate is paused, tripped, blocked by comparisons and holding notices exactly by what came after the last answered start. |
| SafetyGate.CleanAndStickyIff | safety/reconcile.py:33-51 | The comparison is clean if and only if all readings agree, and sticky if and only if two readings really differ. |
| SafetyGate.GuardBlocksIff | safety/reconcile.py:61-77 | Over any comparisons the guard is sticky if and only if one of them was, and otherwise blocks exactly if the last one was not clean. |
| SafetyGate.KillSwitch.RaiseTrip | safety/killswitch.py:61-65 | Only the first trip takes hold and is announced. |
| SafetyGate.KillSwitch.ObserveEvents | safety/killswitch.py:67-88 | The loop over events updates the fields as the run function says and announces at most the trip that took hold. |
| TripProtocol.RecordHolds | ops/runtime.py:452-465 | Recording an operator event puts it in the database or the breadcrumb and removes no other. |
| TripProtocol.SaveSettles | ops/runtime.py:502-545 | After a save, successful or not, database and breadcrumb together stand for the gate in memory. |
| TripProtocol.RestartSettles | ops/run_bot.py:345-394 | A startup from any durable state holds the trip that state stands for and settles again. |
| TripProtocol.TripSurvives | ops/runtime.py:502-545 | After any run of callbacks, failures and crashes a restart finds exactly the switch in memory, no trip lost and no released one back, provided each failed deletion left no file, one to be set aside, or one with the same trip; and in every durable state on the way no operator event has two rows. |
| TripProtocol.FailedUnlinkIff | ops/runtime.py:539-545 | At every reachable state, after a callback that saves or retries, a restart finds the switch in memory if and only if the deletion that was due succeeded or left such a file. |
| TripProtocol.GateSurvives | ops/run_bot.py:350-378 | After a callback that changes the gate, wherever the database refused, and a due deletion that succeeded, a restart comes back with the whole gate in memory, paused exactly if there was something the database did not have. |
| TripProtocol.TickCatchesUp | ops/runtime.py:286-290 | A tick during which everything succeeds leaves nothing outside the database: waiting events and an unsaved gate are in it and the breadcrumb is gone. |
| TripProtocol.StartsTrippedIff | ops/run_bot.py:355-378 | From any durable state a startup is tripped exactly if the breadcrumb is, or the last row is and there is no breadcrumb or one that a later row has overtaken; so a trip in only one of them is missed only if a newer breadcrumb releases it. |
| TripProtocol.CallbackIsAtomic | ops/runtime.py:502-545 | A crash anywhere inside a callback reads as the trip before it or the trip after it, unless an older breadcrumb that could not be deleted carries yet another one. |
| TripProtocol.RestartIsAtomic | ops/run_bot.py:355-394 | A startup interrupted anywhere and started again finds the same trip. |
| TripProtocol.CallbackHolds | ops/runtime.py:395-407 | Inside a callback an event is never absent from both places. |
| TripProtocol.RestartHolds | ops/run_bot.py:366-394 | A startup keeps every event; it is absent from both places on the way if and only if the breadcrumb was set aside and the event was in it alone. |
| TripProtocol.OpNeverLost | db/record.py:372-388 | Over any run that does not die inside such a window, an event whose callback returned is never lost again. |
| TripProtocol.QuarantineWindowLosesOps | ops/run_bot.py:370-374 | Dying inside the window loses the event for good. |
| TripProtocol.QuarantineIsReachable | ops/runtime.py:502-522 | A run from a first start: a save, an event the database refuses, another save; dying between that save and the rewriting of the breadcrumb and once more in the startup loses the event. |
| TripProtocol.FailedUnlinkRevivesTrip | ops/runtime.py:502-545 | A run from a first start: a trip the database refused, a start that restores the saved state, a deletion that fails; the released trip comes back. |
| TripProtocol.FailedUnlinkWithoutRowLosesTrip | ops/runtime.py:502-545 | A run from a first start: the very first save fails, the next one carries the trip, the deletion fails; the trip is lost. |
| TripProtocol.SafetyStore.Save | ops/runtime.py:502-522 | The method's branches give the durable states the protocol speaks of. |
| TripProtocol.SafetyStore.Record | ops/runtime.py:452-465 | The same for an operator event. |
| TripProtocol.SafetyStore.Retry | ops/runtime.py:395-407 | The same for the retry loop, which rewrites the breadcrumb after each step. |
| Replay.RunIsRight | backtest/engine_replay.py:82-138 | After every minute of every replay the open record describes the position held and every booked trade is a faithful account of it. |
| Replay.SettledAndSkipped | backtest/evaluate_t4.py:136-143 | The fundings due in a holding period split into those of minutes with a bar and those of minutes without. |
| Replay.RecomputedIsPaid | backtest/evaluate_t4.py:99-143 | The bucket sum of the checker is the sum over the half-open time interval. |
| Replay.RightTradePasses | backtest/evaluate_t4.py:134-168 | A faithful trade passes if and only if the fundings of its minutes without a bar add up to zero. |
| Replay.EveryTradePassesTheLedger | backtest/evaluate_t4.py:134-168 | Every trade any replay emits with fixed capital satisfies both wallet identities, and the funding identity exactly under that condition, in particular when every funding minute has a bar. |
| Replay.MisreportPassesIff | backtest/evaluate_t4.py:134-168 | The check is sharp: a misreport of a trade that passes is passed exactly if its funding is right and its errors in result, wallet and fees cancel. |
| ReplayEntries.PendingIff | backtest/engine_replay.py:131-138 | After every minute the engine is pending on an intent if and only if some earlier minute gave it while flat, unblocked and idle, the intent being valid, and no bar since has opened after its decision. |
| ReplayEntries.TakenUpIff | paper/engine.py:263-266 | The next bar that opens after the decision takes it up: an entry is on record in that minute if and only if the bar fills it, at the bar's open. |
| ReplayEntries.TimeExitIs | backtest/engine_replay.py:90-101 | The exit at the open liquidates a position whose liquidation price the open has reached and closes any other there, at the open. |
| ReplayEntries.MinuteFailsIff | backtest/engine_replay.py:90-138 | A minute ends the replay if and only if the engine raises, the intent is malformed though the engine could take one, or something is pending after an exit at the open. |
| ReplayEntries.TradeOfTheDay | backtest/engine_replay.py:82-138 | A replay from its first minute that emits one trade, entered at the second bar's open and left at the third's. |
| Replay.SettleLoop | backtest/engine_replay.py:86-89 | The advancing index settles exactly this minute's fundings and passes over earlier ones. |
| Replay.BookLoop | backtest/engine_replay.py:102-129 | The event loop keeps open record and trades as the booking function says. |
| Replay.MinuteBody | backtest/engine_replay.py:82-138 | One turn of the loop over the engine object, assertions of the hook minute included. |
| Replay.ReplayBars | backtest/engine_replay.py:70-139 | The whole loop computes the run the theorems speak of. |
| Placebo.BarSims | backtest/p1_t4.py:224-235 | With an unreachable stop the executor survives a bar exactly when the trade does, and is liquidated exactly when it is. |
| Placebo.ExitSims | backtest/p1_t4.py:237-253 | The exit at the open ends both with the same wallet, funding and time. |
| Placebo.EnterSims | backtest/p1_t4.py:203-212 | Restoring the filled trade through a snapshot reproduces it with the stop out of reach. |
| Placebo.PlaceboSimulatesReplay | backtest/p1_t4.py:193-268 | A replayed fixed-capital trade that ended at the strategy's open or by liquidation ends the same way in the executor: wallet, funding, time and outcome. |
| Placebo.StartCuts | backtest/p1_t4.py:171-173 | The index starts past the fundings of the entry minute and of all before it. |
| Placebo.NextDueIsFirst | backtest/p1_t4.py:203-211 | The snapshot names the first funding after the entry minute, and eight hours on if there is none. |
| Placebo.SettleFrom | backtest/p1_t4.py:217-222 | From there the index settles exactly each later minute's fundings and none of the entry minute's. |
| Placebo.ExecuteSlot | backtest/p1_t4.py:193-268 | The whole loop over the engine object computes the execution the theorem speaks of, missing bars and raising calls included. |
| Segments.BuildSegments | backtest/p1_t3.py:65-86 | The nested loops return the maximal runs, ascending and disjoint, whose union is exactly the clean minutes of the window. |
| Segments.OneFundingIff | backtest/p1_t3.py:60-69 | The count that decides whether a grid point is clean is one if and only if exactly one funding falls into its minute. |
| Segments.CutDay | backtest/p1_t3.py:71-85 | One day's cuts keep that for everything before the end of the day. |
| Segments.CrossDayEligible.Item | backtest/p1_t3.py:101-106 | The running-total search returns element j of the list of entry minutes, the entries of the segments one after the other. |
| Segments.RowOf | backtest/p1_t3.py:92-106 | The search lands in the one segment that holds that rank. |
| Segments.EntriesAreClean | backtest/p1_t3.py:89-106 | Each listed minute starts the whole holding time of clean minutes. |
| Segments.EntriesAscend | backtest/p1_t3.py:89-106 | The list is strictly ascending. |
| Segments.EveryEntryListed | backtest/p1_t3.py:89-106 | Every minute that starts such a stretch is listed. |
| Segments.ListedIffClean | backtest/p1_t3.py:89-106 | The list holds a minute if and only if it starts that many clean minutes, each once, ascending. |
| EligibleIndex.EligView.Position | backtest/placebo.py:101-107 | The skip loop finds the position with exactly that many good ones before it. |
| EligibleIndex.EligView.Item | backtest/placebo.py:101-108 | The element of that rank in the list of good positions. |
| EligibleIndex.EligView.ToList | backtest/placebo.py:110-111 | The same list written out. |
| EligibleIndex.Index.BadPositions | backtest/placebo.py:79-91 | The bad positions are those whose last minute is missing. |
| EligibleIndex.GoodIsEligible | backtest/placebo.py:59-63 | A position is good if and only if its minute meets the simple definition. |
| EligibleIndex.ListedIsEligible | backtest/placebo.py:59-63 | The list of good positions is the list of eligible minutes. |
| EligibleIndex.FilterUniq | backtest/placebo.py:59-72 | Dropping repetitions before picking the eligible minutes, as the index does, or after is the same. |
| EligibleIndex.OnceIsSimpleIff | backtest/placebo.py:66-68 | That list equals the simple one if and only if no eligible minute is given twice in the grid. |
| EligibleIndex.RepeatedMinute | backtest/placebo.py:66-68 | A grid with one minute twice: the simple list has it twice, the index once. |
| EligibleIndex.Index.Get | backtest/placebo.py:79-91 | For every aligned grid, in any order, and every holding time the cached view lists exactly what the simple definition gives, each minute once. |
| Placement.NeighboursDecide | backtest/p1_core.py:92-96 | An interval is free if and only if the two neighbours of its insertion point are clear of it. |
| Placement.Occupancy.Free | backtest/p1_core.py:92-96 | True if and only if the interval is disjoint from every stored one. |
| Placement.Occupancy.Add | backtest/p1_core.py:98-101 | Stores exactly that interval more and keeps the order. |
| Placement.PlaceSlot | backtest/p1_core.py:118-129 | A slot is placed on an eligible, free, accepted minute, or every one of its attempts was rejected. |
| Placement.P1Draw | backtest/p1_core.py:104-130 | A successful draw places every slot once, in slot order, on disjoint intervals, each eligible and accepted; a failed one names the slot, and all placed ones come before it in the order. |
| Placement.HoldCovers | backtest/p1_core.py:41-43 | The holding minutes are the fewest that reach the exit. |
| Delivery.DeliveryCounter.Observe | ops/delivery_counter.py:176-198 | Exactly the stream's own bucket changes; an unknown stream is an error. |
| Delivery.DeliveryCounter.Stalled | ops/delivery_counter.py:221-231 | Exactly the streams the one rule calls stalled, each judged alone. |
| Delivery.LiveCountIff | ops/delivery_counter.py:176-205 | In any order of arrival, none from the future: the two buckets give the true count of the previous minute if and only if no event of it was missed on arrival; otherwise all were and the answer is nought. |
| Delivery.AscendingMissesNone | ops/delivery_counter.py:176-198 | Minutes that do not go back miss nothing. |
| Delivery.ScanIsTrue | ops/delivery_counter.py:295-337 | The scan of the files finds the latest event and the true count. |
| Delivery.LiveEqualsReplayIff | ops/delivery_counter.py:221-231 | For files that hold the arrivals in any order, the live counter and the replay give the same verdict if and only if no event of the judged minute was missed or that minute does not decide. |
| Delivery.LiveStalledIff | ops/delivery_counter.py:127-149 | For any order of arrival the live verdict is stalled if and only if the stream has sent nothing for more than two minutes, counted from the start if it never sent, or owes an event a minute and none of the minute before was counted. |
| Delivery.LateEventsDiffer | ops/delivery_counter.py:191-196 | A run in which an event behind both buckets makes them differ. |
| Delivery.SilenceSummary | ops/delivery_counter.py:352-377 | The loop computes the longest silence and the number beyond the grace over the windows. |
| Delivery.SummaryIsTrue | ops/delivery_counter.py:352-377 | For time-ordered files they are the true ones over all rows and both edges of the window. |
| Shards.FreePath | data/shards.py:121-126 | The search ends with a name no file has. |
| Shards.FreeIsFree | data/shards.py:121-126 | That name is not taken. |
| Shards.RollKeeps | data/shards.py:112-137 | A roll moves the buffer to a file of its own and touches no other. |
| Shards.TurnKeeps | data/shards.py:158-199 | One turn of the writer, failures included, keeps every row accounted for or marked lost. |
| Shards.LostIff | data/shards.py:182-192 | Over any run a kind has lost rows if and only if some roll of it failed in mid-run on a buffer with rows, before its file was in place. |
| Shards.CleanStopIff | data/shards.py:210-223 | In every interleaving a clean stop means, kind by kind, that the files in write order are the rows put if and only if no such roll failed for that kind; no file is ever replaced. |
| Shards.CleanIff | data/shards.py:210-223 | In every interleaving the record is clean if and only if the writer met the stop, met no row of an unknown kind, no row was put on a full queue and no last flush failed on rows. |
| Shards.TurnRolls | data/shards.py:182-192 | In mid-run each due roll ends with an empty buffer, as one file more or, failing before its file is in place, as nothing; one that is not due changes nothing. |
| Shards.TurnsFinish | data/shards.py:158-199 | Once the stop is queued, as many turns as there are items bring the writer to its end, whatever fails on the way, and not one fewer. |
| Shards.RollFailureIsHidden | data/shards.py:182-192 | A run with a lost row and a clean verdict. |
| Confirmations.RunTracked | notify/bot.py:134-163 | Per nonce, closings and repeats are bounded by what the pending question still allows. |
| Confirmations.RunAuthorised | notify/bot.py:212-242 | Every closing and pausing answers a question that had been asked, by an owner, before its deadline. |
| Confirmations.ClosingsAreConfirmed | notify/bot.py:198-242 | In every interleaving each question is repeated at most the set number of times and closes at most once, only on an owner's yes strictly before its deadline. |
| Confirmations.ClosingsPerQuestion | notify/bot.py:198-242 | Without a word about nonces: in every run the closings under a nonce are at most the questions asked under it, and each is repeated at most the set number of times. |
| Confirmations.AsksIff | notify/bot.py:198-205 | A message opens a question exactly if it is an owner's, private, not stale, with none open, and a stop, or a close unless there is known to be no position; unheard it is not even answered, and other commands are carried out at once. |
| Confirmations.AnswerEnds | notify/bot.py:222-242 | Whatever an owner answers ends the question, and it is carried out exactly on a yes in time. |
| Confirmations.YesCloses | notify/bot.py:212-242 | After such a message and any inputs that leave the question open, an owner's yes in time closes, pausing entries first after a stop, and the question is gone. |
| Confirmations.AlertIff | notify/bot.py:144-159 | The alerts behave as one per nonce would: raised anew, acknowledged, repeated when due, given up, and none disturbs another. |
| Confirmations.AlertsAreBounded | notify/bot.py:144-159 | In every run an alert is sent once for each time it is raised and at most the set number of times more. |
| Confirmations.RepeatedNonceAnswersAnother | notify/bot.py:198-242 | Distinct nonces are needed for one closing per nonce: two closings under one. |
| Confirmations.CommandBot.OnMessage | notify/bot.py:107-132 | A message updates the fields and acts as the model says. |
| Confirmations.CommandBot.OnCallback | notify/bot.py:212-242 | The same for a button. |
| Confirmations.CommandBot.OnTick | notify/bot.py:134-151 | The same for a tick, with its loop over alerts. |

## Left out

- Decimal rounding at 34 or 28 digits: amounts are exact reals, only tick and step rounding is modelled.
- `size_entry`, `sl_gate_passes` and the leverage cap are arbitrary functions inside the engine; so is its liquidation estimate, whose own loop is proved in `Brackets`.
- EntryGate.EntryPassesTheGate: the reasons outside the bot (pause, trip, silent streams, comparison, unsaved safety state, rules from a snapshot) are one given answer per call; what they are is in `SafetyGate`, `Delivery` and `TripProtocol`. A pause, which asks the gate at once, is a second with nothing to retry or close.
- Runtime.CrashConsistency: covers PAPER, the only mode that restores a position from the database.
- FundingRuns.FundingAccounted: the exchange's funding interval is known and a restart keeps it, the feed announces the next grid point, and tick times do not go back; without an interval the program counts no boundaries it did not announce.
- Bar reconciliation, wallet resynchronisation and exchange snapshots in LIVE: thin calls over exchange answers; the comparison itself is in `SafetyGate`.
- Texts of events, alerts and notices, JSON, SQL and parquet encodings, and the columns only reports read: rows hold the fields the read-back uses.
- Brackets.LiquidationEstimate: needs that no row ends before it begins and that rates stay below one, which the parser does not check; a table that fails either breaks it (`Brackets.ReversedRow`, `Brackets.HighRateOscillates`).
- Row ids are positions in the table; operator ids are given and unique per event.
- TripProtocol.TripSurvives: breadcrumb writes succeed; an unparsable breadcrumb and the ids of its old format are left out.
- Replay.ReplayBars: takes the fundings sorted and the strategy's answers as an arbitrary sequence, one per minute; the pre-minute hook, which only fault injection uses, is left out.
- Placebo.PlaceboSimulatesReplay: the executor is given the filled quantity, price and leverage; that the sizing call returns the same ones is not modelled.
- Replay.EveryTradePassesTheLedger: the two wallet identities and the funding recomputation; identity fields copied from the replay, cost grids and rounded strings are not.
- Shards.CleanStopIff: a roll fails before its file is in place or after it; nothing is put once the stop has begun, and the manifest, which a failed registration leaves behind, is not part of the model.
- Delivery.ScanIsTrue: the rows of the files as sequences; the choice of files by name and unreadable files are left out.
- Confirmations.CommandBot.OnMessage: chat ids, texts and counters of statistics are left out.
- Placement.P1Draw: takes the source trades already in entry order; random generators are arbitrary sequences of numbers, and seeds and streams are left out.
- Merging of parts, resampling, range filling, stage scheduling, provenance scans and statistics: easier members or plumbing over files.
- Network, WebSocket and Telegram transport, startup checks and time sync.
