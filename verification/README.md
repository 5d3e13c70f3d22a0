# Verified model of the trading core

This project models the deterministic core of the trading service and proves what its pieces
promise. Prices and quantities are reals, timestamps integers, and the tolerances of the code
(1e-9 on cash comparisons, 1e-12 on residues) are kept as named constants.

Stateful components appear twice: as a transition function on values, about which the theorems are
proved over all runs, and as a class whose methods update its fields the way the program does,
each proved to take the object exactly where the transition takes its value. What the transitions
themselves decide is stated a second time in their own terms, in prices, quantities and switches:
which price fires an order, what a fill moves, where a stop goes, who is let in.

| part | files |
|---|---|
| Paper exchange and portfolio accounting | `Costs`, `Orders`, `Portfolio`, `PortfolioManager`, `PortfolioValue`, `Trailing`, `PaperExchange`, `PaperEngine`; theorems in `PaperMoney`, `PaperLedger`, `PaperOrders`, `PaperFinality`, `PaperPrices`, `PaperCash`, `PaperCashLimits`, `PaperProtection`, `PaperManagement`, `PaperTriggers`, `PaperFills`, `PaperIntake`, `PaperEnds` |
| Indicators, signals, backtest | `Windows`, `Indicators`, `Wilder`, `IndicatorLaws`, `Prefixes`, `Candles`, `Signals`, `Backtest`, `BacktestPlans`, `BacktestEngine`, `Compliance`, `BacktestPolicy`, `BacktestLedger`, `BacktestEntries`, `Splits`, `Metrics` |
| Resampling | `Resampling` |
| Sandbox order protocol | `Lifecycle`, `Sandbox`, `SandboxEngine`, `SandboxGates` |
| Durable safety state | `KillSwitches`, `Stages` |
| Webhook replay and rate limiter | `Webhook`, `WebhookHistory` |
| Risk limits, engine and planner | `RiskLimits`, `RiskGate`, `RiskRules`, `Planning` |

Where the code falls short of what one would expect of it, the code is kept as it is and the exact
condition is proved:

- A refused `open_position` has already moved cash when the refusal is the opposite side
  (`Portfolio.RefusedOpenIsCleanIff`); the exchange never gets there (`PaperMoney.TradedKeeps`).
- A close of exactly the held quantity plus 1e-12 leaves a position of negative size
  (`Portfolio.CloseKeepsSoundIff`); the run theorems hold until one happens.
- An order under the id of one with fills or fees loses them, and one under an id yet to be
  generated will be lost itself; the ledger agrees throughout a run exactly when neither happens
  (`PaperOrders.LedgersAgreeIff`). A retry under the id of an order that never filled is harmless.
- A finished order is final against everything but resubmission: a submission under its id that
  lands replaces it, the ordinary retry included, whose refusal as a duplicate is filed over a
  filled order (`PaperFinality.DuplicateOverwrites`). Only a refused order sent again and refused
  under the very same record is left as it was (`PaperFinality.FinishedOrderStandsIff`).
- A trailing distance that is not positive leaves the stop on the wrong side of the price
  (`PaperProtection.UpdateLeavesInBracket`).
- A stop-limit order slips past its own limit whenever slippage applies
  (`PaperPrices.StopLimitKeepsLimitIff`).
- The look-ahead guard is silent exactly on sorted series (`Backtest.GuardSilentIffSorted`);
  causality does not rest on it but on the slice of closed candles.
- A kill-switch activation whose write fails leaves trading allowed where the store holds an
  inactive row (`KillSwitches.FailedActivationIff`).
- Replay protection holds exactly when the time to live is at least twice the skew, or where skew
  or rate leave no room for a second pass (`Webhook.ReplayProtectionIff`); for a timestamp that is
  not a number it never does (`Webhook.NotANumberReplays`).
- The one-pass drawdown looks only from the peak: where equity first falls below zero it finds the
  worst decline exactly when every earlier point is zero or that peak (`Metrics.NegativePointIff`).
- Walk-forward windows over days never come to an end when the step is zero days and the first
  window fits (`Splits.EndsIff`).

## Model

| member | source | states |
|---|---|---|
| `Portfolio.OpenKeepsCapital` | src/crypto_trading_mcp/portfolio/manager.py:108-165 | An opening trade in the held direction, or with nothing held, keeps capital (book value less realized profit, plus opening fees and dropped residues): its fee is all that leaves the book |
| `Portfolio.RefusedOpenIsCleanIff` | src/crypto_trading_mcp/portfolio/manager.py:125-148 | A refused open leaves the account untouched exactly when it is refused before the opposite-side check; otherwise cash and fees have already moved |
| `Portfolio.CloseKeepsCapital` | src/crypto_trading_mcp/portfolio/manager.py:167-198 | Any close, partial or full, long or short, keeps capital, the dropped residue accounted for |
| `Portfolio.CloseKeepsSoundIff` | src/crypto_trading_mcp/portfolio/manager.py:179-198 | A close keeps every quantity positive exactly when it is not a close of precisely the held quantity plus 1e-12, which passes the size check without deleting the position |
| `Portfolio.ResidueIsSmall` | src/crypto_trading_mcp/portfolio/manager.py:191-198 | The residue a full close drops is worth at most 1e-12 of the average entry |
| `Portfolio.OpenKeepsSound` | src/crypto_trading_mcp/portfolio/manager.py:108-165 | Weighted-average extension and first entry keep every position positive and positively priced |
| `Portfolio.SnapshotEquity` | src/crypto_trading_mcp/portfolio/manager.py:66-106 | Snapshot equity is cash plus signed cost of the positions plus the unrealized profit it reports, and marking moves neither cost nor capital |
| `PortfolioValue.EquityIsLiquidation` | src/crypto_trading_mcp/portfolio/manager.py:66-106 | The equity of a snapshot is the cash that closing every position at its mark would leave |
| `PortfolioValue.PeakIsHighest` | src/crypto_trading_mcp/portfolio/manager.py:66-106 | Over every run of the exchange, day ends included, the peak is the highest equity a snapshot has found |
| `PortfolioValue.DrawdownIsFall` | src/crypto_trading_mcp/portfolio/manager.py:66-106 | The reported drawdown is the fall from that peak as a share of it |
| `PortfolioValue.SnapshotReports` | src/crypto_trading_mcp/portfolio/manager.py:66-106 | What else a snapshot reports, and that it leaves all but marks and peak |
| `PortfolioManagers.PortfolioManager.OpenPosition` | src/crypto_trading_mcp/portfolio/manager.py:108-165 | The mutating open leaves exactly the specified account, refusals included |
| `PortfolioManagers.PortfolioManager.ClosePosition` | src/crypto_trading_mcp/portfolio/manager.py:167-198 | The mutating close leaves exactly the specified account and returns the profit it realized |
| `PortfolioManagers.PortfolioManager.MarkPositions` | src/crypto_trading_mcp/portfolio/manager.py:66-84 | The marking loop marks every position in place and its two running sums are the totals over the table |
| `PortfolioManagers.PortfolioManager.TakeSnapshot` | src/crypto_trading_mcp/portfolio/manager.py:66-106 | Peak, drawdown, daily profit and equity of the snapshot, and the account it leaves |
| `PortfolioManagers.PortfolioManager.ResetTradingDay` | src/crypto_trading_mcp/portfolio/manager.py:200-203 | The day's start equity and trade count are reset, nothing else moves |
| `PortfolioManagers.Position.Mark` | src/crypto_trading_mcp/portfolio/manager.py:25-32 | Marking sets price, value and unrealized profit by side and keeps quantity and average |
| `Costs.SlippageIsAdverse` | src/crypto_trading_mcp/exchange/slippage.py:40-89 | Slippage never helps the trader outside a prediction market and never makes a price negative while the cap is at most 100 % |
| `Costs.SlippageIsCapped` | src/crypto_trading_mcp/exchange/slippage.py:40-61 | Slippage is what its kind asks for, between nothing and the cap, and nothing where it is off |
| `Costs.RatePrecedence` | src/crypto_trading_mcp/exchange/fees.py:47-70 | A venue's own basis points for the liquidity come before its rate, that before the asset's, that before the default, and the schedule's basis points for the liquidity last |
| `PaperEngine.Exchange.Trade` | src/crypto_trading_mcp/exchange/paper.py:376-416 | A buy covers a short before it opens a long and a sell the other way round, so no open meets an opposite position |
| `PaperCash.FillIsFair` | src/crypto_trading_mcp/exchange/paper.py:347-375 | The fill an open order gets at a market price that is not negative: a positive part of what remains, never better than the market unless it is at the order's limit, and a fee of at most the traded value |
| `PaperEngine.Exchange.Settle` | src/crypto_trading_mcp/exchange/paper.py:376-473 | A fill attempt either writes log, order and bracket, or rejects the order, or raises where the table has no way to REJECTED |
| `PaperEngine.Exchange.FillMarketOrder` | src/crypto_trading_mcp/exchange/paper.py:347-473 | The whole fill takes the state where the transition takes it |
| `PaperOrders.RefusedOnArrivalMovesNothing` | src/crypto_trading_mcp/exchange/paper.py:111-190 | An order refused on arrival moves no money, fills nothing and touches no other order |
| `PaperOrders.ClientIdsPassOnce` | src/crypto_trading_mcp/exchange/paper.py:118-123 | A client id passes once: whatever became of the first order that brought it, and whatever commands came in between, every later order with it is refused as a duplicate |
| `PaperIntake.HaltedTakesNoOrder` | src/crypto_trading_mcp/exchange/paper.py:126-132 | From a halt on, through any commands but its reset, the exchange stays halted and files every order as rejected, for the halt's reason or as a duplicate, moving neither money nor the log |
| `PaperIntake.HaltHalts` | src/crypto_trading_mcp/exchange/paper.py:668-672 | Halting does this for its own reason |
| `PaperIntake.UnacceptableIsRejected` | src/crypto_trading_mcp/exchange/paper.py:111-190 | An order is rejected, and moves nothing, unless trading is on, its client id new, quantity and price positive, its symbol named and not stale, and no refusing failure simulated |
| `PaperIntake.AcceptableIsTaken` | src/crypto_trading_mcp/exchange/paper.py:111-200 | An order of which all this holds is taken: filed under the price it was checked against, left resting, or tried at once where it is a market order or a limit the price meets, and then filled or rejected by the portfolio |
| `PaperIntake.TakenIsAcceptable` | src/crypto_trading_mcp/exchange/paper.py:111-200 | So whatever rests or has moved money met every check |
| `PaperIntake.BreakerTrips` | src/crypto_trading_mcp/exchange/paper.py:656-663 | Over every run the exchange is halted once counted failures reach the configured number |
| `PaperIntake.FailuresAreCounted` | src/crypto_trading_mcp/exchange/paper.py:133-141 | A failure is counted for exactly the orders that a transport failure turns away |
| `PaperIntake.PricesStand` | src/crypto_trading_mcp/exchange/paper.py:70-75 | A price that arrives stands and lifts the staleness of its symbol; marking a symbol stale keeps its price |
| `PaperIntake.SwitchesAre` | src/crypto_trading_mcp/exchange/paper.py:95-108 | What simulating a failure, clearing it and resetting a halt do to the switches and the count |
| `PaperEngine.Exchange.SubmitOrder` | src/crypto_trading_mcp/exchange/paper.py:111-200 | Intake, numbering, submission and immediate fill of market orders and marketable limits |
| `PaperEngine.Exchange.TurnAway` | src/crypto_trading_mcp/exchange/paper.py:111-190 | A refused order is kept as REJECTED with its reason, and transport failures count against the circuit breaker |
| `PaperEngine.Exchange.Cancel` | src/crypto_trading_mcp/exchange/paper.py:202-213 | Cancelling an open order, leaving a finished one, raising on an unknown one |
| `PaperEngine.Exchange.Expire` | src/crypto_trading_mcp/exchange/paper.py:215-220 | Expiry through the transition table, raising where the table has no way |
| `PaperEngine.Exchange.ListOpen` | src/crypto_trading_mcp/exchange/paper.py:227-237 | The open orders of a symbol, or of all where none or an empty one is given, in table order |
| `PaperEngine.Exchange.Match` | src/crypto_trading_mcp/exchange/paper.py:239-279 | The matching loop over the orders listed before it starts |
| `PaperEngine.Exchange.OnPriceUpdate` | src/crypto_trading_mcp/exchange/paper.py:239-279 | One price: resting orders first, then the position of the symbol |
| `PaperEngine.Exchange.Manage` | src/crypto_trading_mcp/exchange/paper.py:475-544 | Mark, break-even, partial exit, protective exit, trailing, mean-reversion exit, in that order |
| `PaperEngine.Exchange.TakePartial` | src/crypto_trading_mcp/exchange/paper.py:493-505 | The partial exit at one unit of risk, once |
| `PaperEngine.Exchange.CloseOut` | src/crypto_trading_mcp/exchange/paper.py:546-556 | A close outside the order flow, its fee charged to no fill |
| `PaperEngine.Exchange.CloseDay` | src/crypto_trading_mcp/exchange/paper.py:281-304 | Day end: open orders cancelled, positions flattened where configured, snapshot, new day |
| `PaperEngine.Exchange.ConfigureRules` | src/crypto_trading_mcp/exchange/paper.py:616-654 | Break-even, partial, trailing and mean-reversion rules of a symbol |
| `PaperEngine.Exchange.RecordApiFailure` | src/crypto_trading_mcp/exchange/paper.py:656-663 | Failures are counted and the exchange halts at the configured number |
| `PaperEngine.Exchange.HaltTrading` | src/crypto_trading_mcp/exchange/paper.py:668-672 | Halting with a reason |
| `PaperExchange.OpenIds` | src/crypto_trading_mcp/exchange/paper.py:227-237 | Exactly the filed open orders of the symbol, and those of every symbol where none or an empty one is given |
| `PaperMoney.TradedKeeps` | src/crypto_trading_mcp/exchange/paper.py:376-426 | A fill's trade keeps capital or is refused with the account untouched |
| `PaperMoney.StepKeeps` | src/crypto_trading_mcp/exchange/paper.py:111-304 | Every command, raised or not, keeps soundness and capital |
| `PaperMoney.MoneyIsConserved` | src/crypto_trading_mcp/portfolio/manager.py:66-198 | Over every run without a close of exactly quantity plus 1e-12: cash plus signed cost is starting cash plus realized profit less opening fees, up to at most 1e-12 of the average entry for each full close that did not match its quantity exactly, and equity is that plus unrealized profit |
| `PaperLedger.RefusedFillIsClean` | src/crypto_trading_mcp/exchange/paper.py:417-426 | An order that a fill attempt turns REJECTED leaves portfolio, positions and fill log as they were; a partially filled one raises instead and changes nothing |
| `PaperLedger.MatchTouchesListed` | src/crypto_trading_mcp/exchange/paper.py:239-279 | A fill touches only its own order, so the loop meets every listed order as listed |
| `PaperLedger.StepKeeps` | src/crypto_trading_mcp/exchange/paper.py:111-279 | Every command keeps orders, fill log and fee total in agreement, a retry under the id of an order that never filled included |
| `PaperLedger.LedgersAgree` | src/crypto_trading_mcp/exchange/paper.py:347-473 | In every state reachable by orders under free ids and any other commands, without such a close, each order's filled quantity and fees are the sums over its fills, 0 <= filled <= quantity, FILLED leaves at most 1e-12, and fees paid are fill fees plus exit fees |
| `PaperOrders.LedgerAgreesIff` | src/crypto_trading_mcp/exchange/paper.py:111-200 | The other half: an order that lands without fills of its own keeps the ledger in agreement exactly when its id is free, which means not yet to be generated and without fills or fees |
| `PaperOrders.LedgersAgreeIff` | src/crypto_trading_mcp/exchange/paper.py:111-473 | Over a run of orders that arrive without fills of their own, and without a close of quantity plus 1e-12: the ledger agrees after every command exactly when every order that lands has a free id as it arrives |
| `PaperOrders.TotalsAgreeIff` | src/crypto_trading_mcp/exchange/paper.py:111-473 | Over every run, whatever the orders bring and whatever is closed: every order's totals are the sums over its fills after every command exactly when every order that lands brings the totals that the log has under its id |
| `PaperFinality.FinishedOrderStandsIff` | src/crypto_trading_mcp/exchange/models.py:62-91 | For every finished order, state and command: the order's record and its share of the fill log stand unless the command submits another order under its id that lands, the sole exception being one turned away under the very record that is there |
| `PaperFinality.SettledOrderStandsIff` | src/crypto_trading_mcp/exchange/models.py:62-91 | So a filled, cancelled or expired order stands exactly when no submission under its id lands, with no condition on what that submission asks for |
| `PaperFinality.LandedRecord` | src/crypto_trading_mcp/exchange/paper.py:111-200 | What a submission that lands leaves under its id: the record of its refusal with nothing logged, an open order, or a new positive fill |
| `PaperFinality.DuplicateOverwrites` | src/crypto_trading_mcp/exchange/paper.py:118-123 | An order sent again under its id and client id is refused as a duplicate, and the refusal replaces the first record, filled or not |
| `PaperFinality.FinishedOrderStandsForeverIff` | src/crypto_trading_mcp/exchange/models.py:62-91 | Over any run: a finished order stands throughout exactly when no command replaces it in this way |
| `PaperOrders.UpdateFillsExactlyTheTriggered` | src/crypto_trading_mcp/exchange/paper.py:239-279 | From an orderly state, a completed price update changes exactly the open orders of its symbol that the price triggers: none is passed over and no other moves |
| `PaperTriggers.StopFiresIff` | src/crypto_trading_mcp/exchange/paper.py:331-336 | In prices: a resting stop or stop-limit to sell moves at a price exactly when that is at or below its stop price, one to buy when it is at or above |
| `PaperTriggers.LimitFiresIff` | src/crypto_trading_mcp/exchange/paper.py:324-329 | A resting limit to buy moves exactly at or below its limit, one to sell at or above |
| `PaperTriggers.TakeProfitFiresIff` | src/crypto_trading_mcp/exchange/paper.py:338-345 | A resting take-profit to sell moves exactly at or above its stop price, one to buy at or below, with its limit in place of a missing stop price |
| `PaperTriggers.FiresFurther` | src/crypto_trading_mcp/exchange/paper.py:239-279 | An order that moves at a price moves at every price further in its direction |
| `PaperFills.TradeMovesPosition` | src/crypto_trading_mcp/exchange/paper.py:376-416 | A fill moves the signed position by its signed quantity, whether it opens, extends, reduces or closes, with less than 1e-12 rounded away, and no other position |
| `PaperFills.TradeMovesCash` | src/crypto_trading_mcp/portfolio/manager.py:108-198 | It moves cash against the position at its price, less its fee |
| `PaperFills.TradeRealizes` | src/crypto_trading_mcp/portfolio/manager.py:167-198 | Against the position it realizes what its price is better than the entry, less its fee, and leaves the entry of the rest |
| `PaperFills.TradeAverages` | src/crypto_trading_mcp/portfolio/manager.py:108-165 | With the position it realizes nothing and enters at the weighted average |
| `PaperFills.CashIsChecked` | src/crypto_trading_mcp/portfolio/manager.py:120-131 | A purchase is refused exactly where it costs more than the cash and the tolerance, and a sale with nothing held never is |
| `PaperFills.TriggeredPays` | src/crypto_trading_mcp/exchange/paper.py:347-375 | Of the orders that a price triggers, limits pay the maker's fee and the others the taker's |
| `PaperFills.TriggeredAt` | src/crypto_trading_mcp/exchange/paper.py:252-263 | A stop or a take-profit trades at the price that triggers it, worse by the slippage |
| `PaperFills.FillCarriesBracket` | src/crypto_trading_mcp/exchange/paper.py:463-470 | After a fill the position has the protective prices the order brought, and keeps its own where it brought none |
| `PaperOrders.CreatedOrderAgreesIff` | src/crypto_trading_mcp/exchange/paper.py:111-200 | Totals of an order agree with the log after submission exactly when they did on arrival |
| `PaperOrders.ReusedIdLosesFills` | src/crypto_trading_mcp/exchange/paper.py:111-200 | A second order under the id of one with fills or fees breaks the agreement, whatever it asks for, and so does one under an id the exchange is yet to generate |
| `PaperEnds.CancelEnds` | src/crypto_trading_mcp/exchange/paper.py:202-213 | Cancelling ends an open order and nothing else |
| `PaperEnds.ExpireEnds` | src/crypto_trading_mcp/exchange/paper.py:215-220 | Expiring ends an order that was submitted, and raises for one that was not |
| `PaperEnds.ListedInOrder` | src/crypto_trading_mcp/exchange/paper.py:227-237 | Open orders are listed in the order of the table |
| `PaperEnds.DayEndCancels` | src/crypto_trading_mcp/exchange/paper.py:281-304 | A day end completes with every open order cancelled and no other touched |
| `PaperEnds.DayEndFlattens` | src/crypto_trading_mcp/exchange/paper.py:281-304 | Where the venue flattens no listed position is left; the next day starts at the equity this one ends with and without trades |
| `PaperPrices.StepHonours` | src/crypto_trading_mcp/exchange/paper.py:239-473 | Every command keeps every fill in the log on its order's symbol, side and limit |
| `PaperPrices.CompatibleIff` | src/crypto_trading_mcp/exchange/paper.py:111-200 | For a submission that lands this holds exactly when the fills already logged under its id would honour it too |
| `PaperPrices.FillsHonourOrders` | src/crypto_trading_mcp/exchange/paper.py:347-364 | Over every such run, every fill of a limit order is at exactly its limit, and every fill trades its order's symbol and side |
| `PaperPrices.StopLimitKeepsLimitIff` | src/crypto_trading_mcp/exchange/paper.py:252-263 | When a stop-limit order's fill keeps to its limit, which it fills at and slips from: outside prediction markets exactly when no slippage applies to a positive limit, and for prediction contracts also where the clamp to [0, 1] helps |
| `PaperCash.CashFloor` | src/crypto_trading_mcp/portfolio/manager.py:120-131 | Over every run that opens no short, with fee rates and a slippage cap of at most 100 %, rebates included, and prices and limits that are not negative, cash never falls below -1e-9 |
| `PaperCashLimits.FeeRateMatters` | src/crypto_trading_mcp/portfolio/manager.py:167-198 | With any fee rate above 100 % a purchase and a sale end below the floor |
| `PaperCashLimits.SlippageCapMatters` | src/crypto_trading_mcp/exchange/slippage.py:61-80 | So they do with any slippage above 100 % |
| `PaperCashLimits.LimitSignMatters` | src/crypto_trading_mcp/exchange/paper.py:347-364 | So does a sale at any negative limit |
| `PaperCashLimits.PriceSignMatters` | src/crypto_trading_mcp/exchange/paper.py:475-556 | So does a stop hit at any negative price |
| `Trailing.TrailedStop` | src/crypto_trading_mcp/exchange/trailing.py:31-83 | Trailing never widens a stop where widening is off, and keeps it behind the price exactly when its distance is positive |
| `Trailing.TrailingStopEngine.Update` | src/crypto_trading_mcp/exchange/trailing.py:31-83 | The stop the engine returns, by symbol, side and rule |
| `PaperProtection.ProtectedPosition` | src/crypto_trading_mcp/exchange/paper.py:506-544 | A position that outlives the exit checks is the one they found with its stop trailed, inside its bracket |
| `PaperProtection.SurvivorIsManaged` | src/crypto_trading_mcp/exchange/paper.py:475-544 | A position that survives position management is short of its target, and clear of its stop exactly when its trailing distance is positive; its stop is no wider and its partial exit was taken at most once |
| `PaperProtection.UpdateLeavesInBracket` | src/crypto_trading_mcp/exchange/paper.py:239-279 | After any completed price update, whatever resting orders it filled, the position held in its symbol, old, new or turned around, is short of its target, and clear of its stop exactly when its trailing distance is positive |
| `PaperProtection.StopRatchets` | src/crypto_trading_mcp/exchange/paper.py:475-544 | Over any tape of prices, of any symbols, that triggers no resting order of the symbol itself, with widening off, a survivor's stop never moves against it and its partial exit fires at most once |
| `PaperManagement.ManagedIs` | src/crypto_trading_mcp/exchange/paper.py:475-544 | In prices, for any position: management closes it exactly at its stop, at its target or back at the mean; otherwise it stays, marked, cut by its partial exit where one is due, its stop moved to break-even and then trailed, and nothing is raised |
| `PaperManagement.PartialOverdone` | src/crypto_trading_mcp/exchange/paper.py:493-505 | A partial exit that leaves nothing closes the position, and one for more than is held raises and changes no money |
| `PaperManagement.StopMovesToEntryIff` | src/crypto_trading_mcp/exchange/paper.py:483-491 | Without a trailing rule a surviving stop is exactly the entry where break-even is configured, the price a unit of risk in favour and the stop on the losing side, and exactly where it was otherwise |
| `PaperManagement.StopReachesEntry` | src/crypto_trading_mcp/exchange/paper.py:483-491 | With any trailing rule that does not widen, from a unit of risk on a surviving stop is no worse than the entry |
| `PaperManagement.TrailsTo` | src/crypto_trading_mcp/exchange/trailing.py:31-83 | A trailed stop lies its distance behind the price, or stays where it was if that is closer |
| `PaperManagement.LeavingPays` | src/crypto_trading_mcp/exchange/paper.py:546-556 | A position closed at stop, target or mean is sold or bought back whole at the price for the taker's fee, and realizes just that |
| `PaperManagement.UpdateManages` | src/crypto_trading_mcp/exchange/paper.py:239-279 | A completed price update that triggers no resting order of the symbol does all this to its position |
| `PaperManagement.ConfigureGives` | src/crypto_trading_mcp/exchange/paper.py:616-654 | Configuring a symbol sets its break-even rule and each rule given, arms its partial exit anew, and touches no other symbol |
| `Indicators.Sma` | src/crypto_trading_mcp/market/indicators.py:8-19 | The running-sum loop gives the mean of exactly the last period values, and an error for a period that is not positive |
| `Indicators.Ema` | src/crypto_trading_mcp/market/indicators.py:22-39 | The seeded recursion, value by value |
| `Indicators.EmaWithin` | src/crypto_trading_mcp/market/indicators.py:22-39 | The average stays between the least and the greatest value seen |
| `IndicatorLaws.EmaLaw` | src/crypto_trading_mcp/market/indicators.py:22-39 | An exponential average gives the new value two parts of period plus one, and starts from the mean |
| `Indicators.EmaPrefix` | src/crypto_trading_mcp/market/indicators.py:22-39 | Later values change no earlier average |
| `Indicators.SmaPrefix` | src/crypto_trading_mcp/market/indicators.py:8-19 | Later values change no earlier mean |
| `Indicators.MacdOf` | src/crypto_trading_mcp/market/indicators.py:67-93 | The signal line, averaged over the compacted line, is dealt back to the bars it belongs to |
| `Prefixes.MacdPrefix` | src/crypto_trading_mcp/market/indicators.py:67-93 | Line and realigned signal of a prefix are the prefix of line and signal |
| `Prefixes.AtrPrefix` | src/crypto_trading_mcp/market/indicators.py:96-125 | Later bars change no earlier average true range |
| `Prefixes.AdxPrefix` | src/crypto_trading_mcp/market/indicators.py:194-255 | Later bars change no earlier ADX |
| `Prefixes.RsiPrefix` | src/crypto_trading_mcp/market/indicators.py:42-64 | Later values change no earlier RSI |
| `Prefixes.VwapPrefix` | src/crypto_trading_mcp/market/indicators.py:258-272 | Later bars change no earlier VWAP |
| `Wilder.Atr` | src/crypto_trading_mcp/market/indicators.py:96-125 | The running sum is the mean of the last period true ranges |
| `Wilder.Adx` | src/crypto_trading_mcp/market/indicators.py:194-255 | The loop computes the specified +DI, -DI and ADX, and the lookup of the previous average never fails |
| `Wilder.SmoothedWithinRange` | src/crypto_trading_mcp/market/indicators.py:194-255 | Smoothed +DM and -DM stay non-negative and together within the smoothed true range |
| `Wilder.DirectionalIndicatorsWithin` | src/crypto_trading_mcp/market/indicators.py:194-255 | +DI and -DI are non-negative and together at most 100 |
| `Wilder.DxWithin` | src/crypto_trading_mcp/market/indicators.py:194-255 | DX lies in [0, 100] |
| `Wilder.AdxWithin` | src/crypto_trading_mcp/market/indicators.py:194-255 | ADX lies in [0, 100] |
| `IndicatorLaws.TrueRangeIsLargest` | src/crypto_trading_mcp/market/indicators.py:96-125 | The true range is the largest of the bar's range and the distances of its ends from the close before |
| `IndicatorLaws.MovesAre` | src/crypto_trading_mcp/market/indicators.py:194-255 | A bar moves up or down by the larger of its rise and fall, if positive, and not both ways |
| `IndicatorLaws.SmoothedLaw` | src/crypto_trading_mcp/market/indicators.py:194-255 | Wilder's sum keeps all but one part of period of itself and adds the new term |
| `Wilder.Rsi` | src/crypto_trading_mcp/market/indicators.py:42-64 | The seeding and smoothing loops compute the specified index |
| `Wilder.RsiWithin` | src/crypto_trading_mcp/market/indicators.py:42-64 | RSI lies in [0, 100], whatever the prices |
| `IndicatorLaws.StrengthIsShare` | src/crypto_trading_mcp/market/indicators.py:42-64 | RSI is the share of average gains in all moves, in percent |
| `IndicatorLaws.RsiAboveHalfIff` | src/crypto_trading_mcp/market/indicators.py:42-64 | It is above fifty exactly where gains outweigh losses |
| `Wilder.Vwap` | src/crypto_trading_mcp/market/indicators.py:258-272 | The running sums give traded value over volume, and nothing where the volume is zero |
| `Wilder.VwapWithin` | src/crypto_trading_mcp/market/indicators.py:258-272 | VWAP lies between the lowest low and the highest high so far |
| `Signals.ClosedPrefix` | src/crypto_trading_mcp/backtest/signals.py:21-25 | The slice a signal sees depends only on the bars up to its index, though it is handed the whole series |
| `Signals.StructureBreakIff` | src/crypto_trading_mcp/backtest/signals.py:116-140 | A structure break, up or down, is exactly a close beyond every bar of the lookback, with its stop at or beyond them all on the other side |
| `Signals.BreakoutIff` | src/crypto_trading_mcp/backtest/signals.py:28-58 | A breakout signal is exactly a close beyond every bar of the channel on enough volume |
| `Signals.BreakoutBracket` | src/crypto_trading_mcp/backtest/signals.py:28-58 | Its stop lies a multiple of the range away and its target three times as far |
| `Signals.ReversionIff` | src/crypto_trading_mcp/backtest/signals.py:61-86 | Mean reversion buys exactly a close further below the mean than its band and sells one further above, back to the mean |
| `Signals.CrossIff` | src/crypto_trading_mcp/backtest/signals.py:88-113 | Trend following acts exactly where the fast average crosses the slow one, in the direction of the cross |
| `BacktestPlans.SignalsAreProtected` | src/crypto_trading_mcp/backtest/signals.py:28-166 | On plausible candles every signal of every strategy has its stop strictly on the losing side of the close and its target strictly on the winning side |
| `BacktestPlans.DonchianProtects` | src/crypto_trading_mcp/backtest/signals.py:28-58 | A breakout's stop distance is positive, since the bar that breaks out has a positive true range |
| `BacktestPlans.PlanKeepsItsShare` | src/crypto_trading_mcp/backtest/engine.py:317-358 | A plan from such a signal risks at most half a percent of capital at its stop and is worth at most two percent, fallback prices included |
| `BacktestPlans.PlanIsLargest` | src/crypto_trading_mcp/backtest/engine.py:317-358 | The plan is for a positive size, and for the largest that keeps both shares |
| `BacktestPlans.PlanFollowsSignal` | src/crypto_trading_mcp/backtest/engine.py:317-358 | It has the signal's side, entry and protective prices, or a stop two and a target six percent away |
| `BacktestPlans.PlansFromCandlesKeepTheirShare` | src/crypto_trading_mcp/backtest/signals.py:143-166 | From the candles to the plan: whatever id a strategy goes by, every plan made at any bar of a plausible series keeps to these shares, its stop and target on the right sides |
| `Backtest.BarAgrees` | src/crypto_trading_mcp/backtest/signals.py:143-166 | Series that agree up to a bar give the same decision at it, for every strategy |
| `Backtest.RunIsCausal` | src/crypto_trading_mcp/backtest/engine.py:152-246 | Series that agree on their first k bars give the same exchange, fills, curve, rejections and entries after k bars, for every strategy, venue, compliance and risk gate, told of every filled entry |
| `Backtest.TurnoverIsCounted` | src/crypto_trading_mcp/paper/engine.py:402-404 | With any engine that counts entries as it is told of them, no filled entry of a backtest goes uncounted and nothing else is counted |
| `BacktestPolicy.TurnoverStaysWithinLimit` | src/crypto_trading_mcp/compliance/policy.py:86-118 | Under the program's own policy, checked before an entry and told of its fill, the day's turnover is the value of the entries made and never exceeds the limit over a whole backtest |
| `Compliance.Policy.Evaluate` | src/crypto_trading_mcp/compliance/policy.py:86-118 | Approves exactly what nothing blocks, or everything when switched off, and lists exactly the reasons that block |
| `Compliance.ApprovesIff` | src/crypto_trading_mcp/compliance/policy.py:92-118 | Condition by condition: what an enabled policy lets through |
| `BacktestLedger.BacktestBooksBalance` | src/crypto_trading_mcp/backtest/engine.py:152-246 | After every bar of every backtest, with nothing asked of strategy, gates, venue or candles: money is conserved, every order's totals and fees are those of its fills, every fill trades its order's terms, and no order is left open |
| `Backtest.EquityCurveIsCausal` | src/crypto_trading_mcp/backtest/engine.py:152-246 | Two complete runs share the first k equity points whenever their series share the first k bars |
| `Backtest.CurveGrows` | src/crypto_trading_mcp/backtest/engine.py:152-246 | A bar rewrites no equity point, and an exception ends the run for good |
| `Backtest.After` | src/crypto_trading_mcp/backtest/engine.py:152-246 | A run that has not raised has exactly one equity point per bar |
| `BacktestEntries.NothingInWarmup` | src/crypto_trading_mcp/backtest/engine.py:151-180 | Nothing is entered or rejected in the first thirty bars |
| `BacktestEntries.PathPlaysBar` | src/crypto_trading_mcp/backtest/engine.py:163-167 | A bar is played open, high, low, close |
| `BacktestEntries.EntersIff` | src/crypto_trading_mcp/paper/engine.py:220-415 | A bar that completes enters exactly when it is warm, the signal is not flat, nothing is held, the plan has a size, compliance and the risk engine let it pass and its order fills, and counts a rejection exactly when it tried and did not |
| `BacktestEntries.EntriesAreHeld` | src/crypto_trading_mcp/paper/engine.py:373-398 | After every bar of a backtest that enters, the position is the one its signal planned: side, size, stop and target |
| `BacktestEntries.EntryRulesAre` | src/crypto_trading_mcp/backtest/engine.py:219-227 | What rules an entry puts on its position |
| `BacktestEntries.PointsAreSnapshots` | src/crypto_trading_mcp/backtest/engine.py:230-246 | The point a bar adds is the snapshot it ends with: its stamp, cash, equity, drawdown and day's profit |
| `Backtest.GuardSilentIffSorted` | src/crypto_trading_mcp/backtest/replay.py:38-46 | The look-ahead guard never raises exactly when the series is sorted by time |
| `BacktestEngine.LookaheadGuard.AssertNoFutureAccess` | src/crypto_trading_mcp/backtest/replay.py:38-46 | Raises and counts exactly when something used is stamped after the cursor's bar |
| `BacktestEngine.PlaceOrder` | src/crypto_trading_mcp/paper/engine.py:373-398 | An approved plan becomes a market order at the close, with its bracket |
| `BacktestEngine.Act` | src/crypto_trading_mcp/paper/engine.py:220-415 | Sizing, gates, snapshot, risk and order of one signal, and what the engine notes of a fill, ending as specified |
| `BacktestEngine.PlayBar` | src/crypto_trading_mcp/backtest/engine.py:152-246 | One bar: guard, price path, decision after the warm-up, snapshot |
| `BacktestEngine.RunBacktest` | src/crypto_trading_mcp/backtest/engine.py:152-246 | The bar loop over the mutable exchange leaves exactly the run the causality theorems are about |
| `Resampling.SynthesizeTimeframe` | src/crypto_trading_mcp/orchestration/proposal.py:18-41 | One bar per bucket, ascending, each with the first open, highest high, lowest low, last close and total volume of its candles; a zero length raises |
| `Resampling.FillBuckets` | src/crypto_trading_mcp/orchestration/proposal.py:23-27 | The bucket table holds exactly the candles of each bucket in order |
| `Resampling.AggregateIsUnique` | src/crypto_trading_mcp/orchestration/proposal.py:18-41 | Only one series is the aggregate of given candles |
| `Resampling.ResampleAggregates` | src/crypto_trading_mcp/orchestration/proposal.py:18-41 | Taking candles in one at a time gives the same aggregate, in any order of the candles |
| `Resampling.VolumeIsConserved` | src/crypto_trading_mcp/orchestration/proposal.py:18-41 | Total volume is conserved, in any order of the candles |
| `Resampling.ResampleComposes` | src/crypto_trading_mcp/orchestration/proposal.py:18-41 | On time-sorted candles, to a length and then to a multiple of it is directly to the multiple |
| `Resampling.AggregatesCompose` | src/crypto_trading_mcp/orchestration/proposal.py:18-41 | The same for any two series that are the aggregates |
| `Resampling.OnlyClosedCandles` | src/crypto_trading_mcp/strategy/features.py:64-80 | The filter keeps exactly the bars whose whole length has passed |
| `Resampling.ClosedExactly` | src/crypto_trading_mcp/strategy/features.py:64-80 | The closed bars are exactly those that end at or before the moment |
| `Resampling.ClosedBarsSeeNoFuture` | src/crypto_trading_mcp/strategy/features.py:64-80 | The closed bars at a moment do not depend on any candle stamped at or after it |
| `Lifecycle.LegalHistoriesEnd` | src/crypto_trading_mcp/sandbox/lifecycle.py:24-82 | The table is acyclic: no legal history repeats a stage or exceeds twelve |
| `Lifecycle.AckComesLast` | src/crypto_trading_mcp/sandbox/lifecycle.py:24-82 | In any legal history ACK follows exactly CREATE_INTENT, RISK_CHECK, IDEMPOTENCY_CHECK, SUBMIT |
| `Lifecycle.Machine.Transition` | src/crypto_trading_mcp/sandbox/lifecycle.py:90-96 | A step is taken exactly when the table has it, and recorded |
| `Sandbox.Path` | src/crypto_trading_mcp/sandbox/execution.py:56-198 | The lifecycle of a recorded call is legal |
| `Sandbox.EffectsKeepOrder` | src/crypto_trading_mcp/sandbox/execution.py:56-198 | A call notes the intent, then its key, then announces the submission in both tables, and only then submits, once |
| `SandboxGates.SubmissionsAreCleared` | src/crypto_trading_mcp/sandbox/execution.py:82-90 | Over every run, each submission is that of a call that was not killed, saw a fresh market and was approved by risk |
| `SandboxGates.AttemptSubmitsIff` | src/crypto_trading_mcp/sandbox/execution.py:56-198 | An attempt submits exactly when its gates are clear, its key is free and it gets past its first four writes |
| `SandboxGates.CompletedStatus` | src/crypto_trading_mcp/sandbox/execution.py:56-198 | What a completed call leaves on record: never submitted, failed, open or filled, with the exchange's order id |
| `SandboxGates.PathTellsTruth` | src/crypto_trading_mcp/sandbox/execution.py:56-198 | The lifecycle shows a submission, an acknowledgement, a fill, a cancel, a failure or a block exactly when there was one |
| `Sandbox.CompletedAgrees` | src/crypto_trading_mcp/orders/ledger.py:23-63 | A call that completes leaves intent row and idempotency row agreeing on id and status |
| `Sandbox.StepKeepsOrder` | src/crypto_trading_mcp/sandbox/execution.py:56-198 | A call cut short after any of its steps keeps the tables and the submissions in order |
| `Sandbox.SubmittedAtMostOnce` | src/crypto_trading_mcp/sandbox/execution.py:56-198 | Over every sequence of calls, restarts and cuts between any two steps, each idempotency key is submitted at most once |
| `Sandbox.SubmissionsAreOnRecord` | src/crypto_trading_mcp/orders/ledger.py:23-37 | Every submission is in both tables first, and a key still marked PERSISTED was never submitted |
| `Sandbox.TablesAgree` | src/crypto_trading_mcp/orders/ledger.py:23-63 | The tables agree on every intent whose call was not cut short |
| `SandboxEngine.Ledger.Persist` | src/crypto_trading_mcp/orders/ledger.py:23-37 | Refuses a key another intent holds, otherwise writes intent then key |
| `SandboxEngine.Ledger.Mark` | src/crypto_trading_mcp/orders/ledger.py:39-63 | Raises on an unknown intent, otherwise updates intent then key |
| `SandboxEngine.Service.Execute` | src/crypto_trading_mcp/sandbox/execution.py:56-198 | A call over the mutable store leaves exactly the prefix of its effects its remaining steps allow, and when it returns its lifecycle is the specified one |
| `KillSwitches.ActiveRowHolds` | src/crypto_trading_mcp/live/durable_kill_switch.py:32-94 | While the row is active nothing but an authorised stored deactivation lifts it, no new trade is allowed and nothing is submitted |
| `KillSwitches.ActivationHolds` | src/crypto_trading_mcp/live/kill_switch.py:32-79 | After an activation returns, through restarts, recoveries, failed writes, unauthorised deactivations and cycles, no new trades and no submissions until an operator lifts it |
| `KillSwitches.CycleSubmitsOnlyWhenAllowed` | src/crypto_trading_mcp/sandbox/stage2_runtime.py:95-151 | A cycle reaches the exchange only with the switch off |
| `KillSwitches.RunsTheProtocol` | src/crypto_trading_mcp/sandbox/stage2_runtime.py:95-151 | Every run of cycles, restarts, recoveries and switching is, to the tables and the exchange, a run of the order protocol |
| `KillSwitches.SubmittedAtMostOnce` | src/crypto_trading_mcp/sandbox/stage2_runtime.py:95-151 | So over every such run each idempotency key reaches the exchange at most once, and nothing that is not on record first |
| `SandboxGates.CycleSubmitsIff` | src/crypto_trading_mcp/sandbox/stage2_runtime.py:95-151 | A cycle submits exactly when the process may trade, the cycle is healthy, the market fresh, risk approves, the key is free and the first four writes are done |
| `SandboxGates.RunSubmitsOnlyWhatItMay` | src/crypto_trading_mcp/sandbox/stage2_runtime.py:95-151 | So over every run of cycles, restarts, recoveries and switching each submission is that of such a cycle |
| `KillSwitches.StatesAgree` | src/crypto_trading_mcp/live/durable_kill_switch.py:32-76 | Row and memory agree after every command while no write fails |
| `KillSwitches.FailedActivationIff` | src/crypto_trading_mcp/live/durable_kill_switch.py:37-63 | An activation whose write fails bars new trades except exactly where the store still holds an inactive row |
| `KillSwitches.RestartRestores` | src/crypto_trading_mcp/live/durable_kill_switch.py:18-35 | A restart takes over the row's state, whatever the process before it held |
| `KillSwitches.RowIsTakenOver` | src/crypto_trading_mcp/live/durable_kill_switch.py:18-35 | A start and a recovery take over an active row with its reason; an inactive one starts with the switch off and changes nothing on a recovery |
| `KillSwitches.DurableKillSwitch.Activate` | src/crypto_trading_mcp/live/durable_kill_switch.py:37-63 | Memory first, then the row; raises when the write fails |
| `KillSwitches.DurableKillSwitch.Deactivate` | src/crypto_trading_mcp/live/durable_kill_switch.py:65-76 | Raises without authority, otherwise clears memory and row |
| `KillSwitches.DurableKillSwitch.AllowsNewTrades` | src/crypto_trading_mcp/live/durable_kill_switch.py:87-94 | Closed when the store cannot be read or the switch is on |
| `KillSwitches.Runtime.RunCycle` | src/crypto_trading_mcp/sandbox/stage2_runtime.py:95-113 | A cycle is one step of the model, and is attempted exactly when store, switch and market gates allow |
| `KillSwitches.Runtime.Recover` | src/crypto_trading_mcp/sandbox/stage2_runtime.py:153-167 | Recovery reloads the row and allows trades only when reconciled with the switch off |
| `KillSwitches.KillSwitch.Deactivate` | src/crypto_trading_mcp/risk/config.py:44-47 | Raises and changes nothing without authority |
| `Stages.NoStageSkipped` | src/crypto_trading_mcp/live/stages.py:54-99 | Every stage between the start and the current one was entered by a recorded promotion from the one below, with operator and evidence |
| `Stages.NoStageEverSkipped` | src/crypto_trading_mcp/live/stages.py:54-99 | The same at any moment of the history |
| `Stages.TradingStageManager.Promote` | src/crypto_trading_mcp/live/stages.py:54-99 | Promotes exactly one step up with operator and evidence, demotes at will, otherwise leaves everything alone; the history stays an unbroken chain |
| `Stages.TradingStageManager.LiveOrdersAreEarned` | src/crypto_trading_mcp/live/stages.py:43-47 | Live orders are allowed only after every promotion from the start up to controlled live |
| `Webhook.RateIsLimited` | src/crypto_trading_mcp/webhook/tradingview.py:147-151 | Every closed interval of sixty seconds holds at most the configured number of admitted requests |
| `Webhook.BucketIsRecent` | src/crypto_trading_mcp/webhook/tradingview.py:109-115 | The bucket is exactly the admitted times the latest request can still see |
| `Webhook.AdmittedSeesRecent` | src/crypto_trading_mcp/webhook/tradingview.py:147-151 | A request is admitted exactly when the log has room in the sixty seconds up to it |
| `Webhook.PruneIsExact` | src/crypto_trading_mcp/webhook/tradingview.py:109-115 | Front pruning of a time-sorted table removes exactly the expired entries |
| `Webhook.RunIsFaithful` | src/crypto_trading_mcp/webhook/tradingview.py:109-213 | The tables stay time-sorted and hold every entry that has not expired |
| `Webhook.RepeatsAreSpaced` | src/crypto_trading_mcp/webhook/tradingview.py:182-213 | Two passes of a nonce, or two intents of a key, are more than the time to live apart |
| `WebhookHistory.HistoryDecides` | src/crypto_trading_mcp/webhook/tradingview.py:117-317 | Over every run whose clock does not go back, what a request does is decided by everything let through before it: the rate in the last minute, authenticity, skew, nonces and keys within the time to live |
| `WebhookHistory.IntentsAreSound` | src/crypto_trading_mcp/webhook/tradingview.py:117-317 | So every intent came with a request that no check would have stopped |
| `Webhook.MessagesPassOnce` | src/crypto_trading_mcp/webhook/tradingview.py:182-213 | No message stamped with a time passes the replay check twice when the time to live is at least twice the skew, or the skew is negative |
| `Webhook.OneAMinutePassesOnce` | src/crypto_trading_mcp/webhook/tradingview.py:147-213 | Nor at a rate of one a minute when the accepted window is no longer than the minute |
| `Webhook.ReplayProtectionIff` | src/crypto_trading_mcp/webhook/tradingview.py:117-213 | Over every run each such message passes at most once, exactly when the time to live is at least twice the skew, or the skew is negative, or the rate is nothing, or it is one a minute and the window no longer than that |
| `Webhook.ShortLivedNoncesReplay` | src/crypto_trading_mcp/webhook/tradingview.py:182-213 | Under any other configuration a message passes at both ends of its window |
| `Webhook.NotANumberReplays` | src/crypto_trading_mcp/webhook/tradingview.py:182-213 | A timestamp that is not a number is never too old: such a message passes again once its nonce has expired, at every rate that admits anything |
| `Webhook.Handler.ForgetExpired` | src/crypto_trading_mcp/webhook/tradingview.py:109-115 | The three pruning loops |
| `Webhook.Handler.Handle` | src/crypto_trading_mcp/webhook/tradingview.py:117-317 | Tables and verdict of a request: rate limit, replay, idempotent repeat and new intent told apart exactly |
| `RiskLimits.MergeEffectiveLimits` | src/crypto_trading_mcp/risk/config.py:57-147 | The narrowing steps give the merged limits, and a conflict is listed exactly for a field where the guideline differs |
| `RiskLimits.MergeIsTheBound` | src/crypto_trading_mcp/risk/config.py:57-147 | Limits respect global, strategy and guideline exactly when they are at least as strict as the merged ones |
| `RiskLimits.GuidelinesOnlyTighten` | src/crypto_trading_mcp/risk/config.py:94-124 | A guideline only tightens, and tightening twice is tightening once |
| `RiskLimits.ApplyingTwiceIsApplyingOnce` | src/crypto_trading_mcp/okf/resolver.py:232-248 | Applying the guideline never loosens, re-applying changes nothing, and the merge is the same before and after |
| `RiskLimits.ResolveIsTheBound` | src/crypto_trading_mcp/okf/resolver.py:137-175 | A resolved guideline is exactly as strict as the guideline's percentages and the system together |
| `RiskLimits.DisagreesIff` | src/crypto_trading_mcp/risk/config.py:94-147 | A conflict is exactly a bound of the guideline that is not the one in force before it |
| `RiskGate.RiskEngine.Evaluate` | src/crypto_trading_mcp/risk/engine.py:50-239 | Approves exactly when nothing blocks and lists exactly the blocking codes, a missing strategy among them, with the allowance narrowed step by step |
| `RiskRules.ApprovesIff` | src/crypto_trading_mcp/risk/engine.py:64-176 | Without a guideline a request is approved exactly when trade, size, day, market and situation fit the merged limits, condition by condition |
| `RiskRules.ApprovesUnderIff` | src/crypto_trading_mcp/risk/engine.py:64-239 | With one, exactly when it also fits the correlation and turnover rules |
| `RiskRules.WorseBlocksMore` | src/crypto_trading_mcp/risk/engine.py:122-176 | What blocks a request blocks it on every account with less cash, more exposure, a worse day, a deeper drawdown or more trades |
| `RiskGate.RiskEngine.TradeReasons` | src/crypto_trading_mcp/risk/engine.py:82-137 | The codes about size, stop, reward, exposure and cash |
| `RiskGate.RiskEngine.OkfReasons` | src/crypto_trading_mcp/risk/engine.py:178-219 | The correlation and turnover codes of a guideline |
| `RiskGate.StricterBlocksMore` | src/crypto_trading_mcp/risk/engine.py:64-176 | Stricter limits block on every code looser limits block on |
| `RiskGate.ApprovalIsMonotone` | src/crypto_trading_mcp/risk/engine.py:64-239 | A stricter configuration, with or without a guideline, approves nothing a looser one without it refuses |
| `RiskGate.GuidelineNeverLoosens` | src/crypto_trading_mcp/risk/engine.py:23-239 | Whatever is approved with any guideline, in the request or taken over at construction, is approved without it |
| `RiskGate.AllowedQuantityIsMonotone` | src/crypto_trading_mcp/risk/engine.py:104-119 | The reported allowance never grows as limits tighten |
| `Planning.TradePlanner.Make` | src/crypto_trading_mcp/execution/planner.py:72-178 | A plan is made exactly when there is a side, a confirmed model, a price and a stop away from it, and has the size, target and reward specified |
| `Planning.FeaturesAreCoherent` | src/crypto_trading_mcp/market/indicators.py:294-305 | On bars whose close lies between low and high, structural stops and range lie where a stop belongs |
| `Planning.StopIsOnTheLosingSide` | src/crypto_trading_mcp/execution/planner.py:126-144 | The stop of a plan is strictly on the losing side, structural or from the range |
| `Planning.StopComesFrom` | src/crypto_trading_mcp/execution/planner.py:126-144 | The stop of a plan is the structural one of its side, or else the strategy's multiple of the range away from the price, or there is none |
| `Planning.SizeKeepsBudget` | src/crypto_trading_mcp/execution/planner.py:133-150 | A plan risks at most equity times the merged risk per trade |
| `Planning.SizeIsLargest` | src/crypto_trading_mcp/execution/planner.py:133-150 | The planned size is the largest that keeps to the budget and both caps |
| `Planning.SizeIsTheAllowance` | src/crypto_trading_mcp/execution/planner.py:146-151 | A plan's quantity is exactly the engine's maximum at that stop under the same limits |
| `Planning.SizeStaysWithinCaps` | src/crypto_trading_mcp/risk/engine.py:115-118 | It never draws the position or trade-size code, even under a guideline |
| `Planning.PlannerAndEngineAgree` | src/crypto_trading_mcp/execution/planner.py:113-178 | All of these together, with reward equal to the target and the reward code drawn exactly when the strategy aims below the minimum |
| `Planning.PlansFromBarsAgree` | src/crypto_trading_mcp/market/indicators.py:294-305 | From the bars: on fifty or more well-formed bars the planner lacks a stop exactly when the last close is the extreme of the last three, and every plan it makes at a positive close agrees with the engine in all of this |
| `Splits.BarWindows` | src/crypto_trading_mcp/backtest/splits.py:64-92 | Exactly floor((n - total) / step) + 1 windows when total fits, each at its step |
| `Splits.BarWindowIsAStretch` | src/crypto_trading_mcp/backtest/splits.py:64-92 | The three parts are non-empty and together a contiguous stretch: disjoint, in bounds, in order |
| `Splits.EndsIff` | src/crypto_trading_mcp/backtest/splits.py:94-121 | The calendar walk has an end exactly when its step is positive or its first window does not fit: with a step of zero days and a window that fits it goes on for ever |
| `Splits.CalendarWindows` | src/crypto_trading_mcp/backtest/splits.py:94-121 | Wherever it has an end: terminates with exactly the windows that fit, those with an empty part dropped, each part ending before the next begins |
| `Splits.CalendarIsWellFormed` | src/crypto_trading_mcp/backtest/splits.py:94-121 | Every calendar window has non-empty parts from the series, in strict time order |
| `Splits.WindowCovers` | src/crypto_trading_mcp/backtest/splits.py:94-121 | Each candle of the series from a window's start to its end is in exactly the part its time puts it in |
| `Splits.WalkForward` | src/crypto_trading_mcp/backtest/splits.py:48-134 | Wherever the walk has an end: bar windows when counts are given, else exactly the calendar windows that fit, else the proportional split; without counts a series of at least forty candles yields at least one window |
| `Metrics.MaxDrawdown` | src/crypto_trading_mcp/performance/metrics.py:40-49 | One pass finds the worst decline between any two points of a non-negative curve |
| `Metrics.NegativePointIff` | src/crypto_trading_mcp/performance/metrics.py:40-49 | At the first point below zero the pass has the worst decline exactly when every earlier point is zero or the peak |
| `Metrics.NegativeEquityIsMissed` | src/crypto_trading_mcp/performance/metrics.py:40-49 | A curve on which it has not |
| `Metrics.Streaks` | src/crypto_trading_mcp/backtest/metrics.py:10-23 | The two counters are the longest runs of wins and of losses |
| `Metrics.DrawdownDuration` | src/crypto_trading_mcp/backtest/metrics.py:59-75 | The counter is the longest stretch under water, one still open at the end included |

## Left out

- Input and output: HTTP adapters, exchange connectors, language models, tools, command line, dashboards, configuration files and SQL; the durable store is a pair of maps and one row.
- Hashing, random ids, signatures, secrets and wall-clock time: ids are opaque and new, clocks are integer parameters.
- Floating-point rounding: all arithmetic is exact, with the code's explicit tolerances kept.
- PaperMoney.MoneyIsConserved: stated for runs without a close of exactly the held quantity plus 1e-12, the one point where `Portfolio.CloseKeepsSoundIff` shows a position of negative size.
- PaperLedger.LedgersAgree: stated for the same runs and for orders under free ids without fills of their own, the exact condition by `PaperOrders.LedgersAgreeIff`.
- PaperOrders.LedgersAgreeIff: statuses and fee total included, so it keeps those conditions; for the totals alone `PaperOrders.TotalsAgreeIff` has none.
- PaperCash.FillIsFair: that no fill is better than the market is stated for slippage caps that are not negative; `PaperCash.CashFloor` needs no such bound.
- Events, trade records, per-position realized profit and fees, exposure, strategy ids and the list returned by `on_price_update`: bookkeeping that no modelled decision reads.
- Aliasing of orders: the exchange is handed orders by value, so a caller that later writes to its own order object is not captured; positions are objects.
- Order ids: `Generated` by sequence number or `Supplied` by the caller. The text of a generated id is not modelled; in a backtest it depends on the whole series, through the session id hashed from it, so causality holds up to those texts. Symbols are upper-case already.
- Slippage by volatility and daily volume: the exchange never passes these inputs, so their defaults are constants.
- PaperEngine.Exchange.CloseDay: positions are flattened in any listing order of the table, where the program uses insertion order.
- Signals: strategy parameters are the non-negative ones; ATR, RSI and ADX with a period that is not positive raise and are excluded by their preconditions.
- Backtest.RunIsCausal: compliance, conflict resolution, the risk engine and what the engine notes of a fill are arbitrary functions of the engine's own state, the plan and the portfolio snapshot; metrics and reports after the loop are separate.
- Bollinger bands, realized volatility, swing points, support and resistance, Fibonacci levels and fair-value gaps: simple window formulas.
- Resampling: timeframes are given in minutes, with the parsing of their text left out.
- Sandbox.SubmittedAtMostOnce: one writer and new intent ids are taken from the program's deployment; reason codes, symbols, quantities and the content of reconciliation reports are not part of the rows, and each status request or reconciliation is one step that may fail.
- KillSwitches.ActivationHolds: order cancellation during activation, alerts and the event log rows are not modelled; a process that dies between two writes is a death before or after the row is written.
- Webhook.Handler.Handle: checks that look only at the request and the configuration (secret, scheme, schema, action, symbol, price) are given by their outcomes; the audit log is not modelled.
- RiskGate.RiskEngine.Evaluate: reason codes are a set, without the order of the list; the allowed-pairs filter is given by its outcome, symbols are compared without separators, and warnings are not modelled.
- The planner's model ids, horizon, confidence and invalidation conditions: copied through unchanged.
- BacktestPolicy.TurnoverStaysWithinLimit: kill switch and trading mode are taken not to change in the course of a backtest.
- Splits.WalkForward: day and bar counts are non-negative; chronological splits by ratio are plain slices.
- CAGR, Sharpe, Sortino, expectancy and the other summary figures: formulas without loops.
- Concurrent writers on one ledger, the autonomous loop's saved keys, learning, Monte Carlo, consensus, redaction and tax rules.
