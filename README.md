# Pairs-trading backtest: decision logic in Dafny

This project models the decision core of `stat_arb_backtesting.py`, an intraday
statistical-arbitrage backtest on pairs of linked equities (GOOGL/GOOG,
FOXA/FOX, NWSA/NWS). Every quantity is an exact `real`.

The five modules follow the data flow of one pair:

- `Wrappers` (`wrappers.dfy`): `Option` and `Result`. `None` is the "no valid exit" sentinel (`np.nan` in the source).
- `Pricing` (`pricing.dfy`): `entry_trade` and `m2m` as pure functions.
  - Entry fills pay the slippage: the long leg fills above its raw price, the short leg below it.
  - The return of a closed trade is normalised by the entry capital.
- `Calibration` (`calibration.dfy`): the adaptive exit search `get_exit_spred` and threshold assembly for one confidence level.
  - `GetExitSpread` is the `while True` loop, proved equal to the recursive specification `ExitSearch`.
  - `Tried` lists the quantile levels the search evaluates.
  - `Thresholds` / `Calibrate` give the upper and lower entry, exit and stop-loss levels.
  - The window's `quantile(p)` is a parameter `real -> real`. Lemmas that need it to be monotone on [0, 1] say so.
- `Session` (`session.dfy`): the per-day, per-level tick state machine.
  - Each tick runs the entry check (only when flat), then the exit check, then the forced square-off after 15:50, which stops the day.
  - `SimulateLevelDay` is the imperative loop with its `break`. It appends to a `Ledger` object shared by all levels of a pair.
  - The loop body is split along the source's three blocks: `EntryCheck`, `ExitCheck`, and the square-off in `HandleTick`.
  - It is proved equal to the specification `Run` / `DayTrades`.
- `Backtest` (`backtest.dfy`): the walk-forward driver of one pair.
  - It computes the change-in-spread signal. A row whose date has no previous-close ratio makes `BacktestPair` fail with that date.
    - In the code this is a `KeyError` (line 215) that nothing catches. It ends the whole run: later pairs are never backtested and the report of lines 295-308 never prints.
  - It lists the trading dates.
  - For every date index `i >= LookBackDays + 1` and every configured level, it calibrates on the lookback window and runs the day of `dates[i]`.
  - `BacktestPair` is proved equal to `PairBacktest`.

Two facts about the code that the model makes explicit:

- The lookback window is `.loc[dates[i - 6]:dates[i - 1]]`, with `datetime.date` bounds (lines 219, 224-228).
  - pandas 1.1.4, pinned at line 3, reads a date bound on a timestamp index as midnight at the start of that date and keeps both bounds.
  - The ticks start at 09:40 (line 213), so the end bound falls before every tick of `dates[i - 1]`.
  - The window therefore holds the ticks of the 5 (`look_back_days`) trading dates `dates[i - 6]` to `dates[i - 2]`.
  - `LocSlice` models the midnight bounds. `LookbackWindow` proves which ticks the window then holds.
- The code never checks that timestamps are in order. The model takes rows stamped from 09:40 to 16:00 in strictly increasing time order as a precondition (`ValidRows`), instead of failing on disorder.

## Model

| member | source | states |
|---|---|---|
| `Pricing.M2M` | stat_arb_backtesting.py:154-187 | The return of closing a trade: the long leg sold at its raw exit price less the slippage, the short leg bought back at its raw exit price plus the slippage, and the two legs' profit divided by the entry capital. It is the definition that `M2MAtZeroSlippage`, `M2MSign` and `RoundTripReturn` state properties of. |
| `Pricing.EntryTrade` | stat_arb_backtesting.py:142-152 | "short" goes long `pair[1]` and short `pair[0]`; "long" swaps the legs. With slippage and prices >= 0, the long fill is at least its raw price and the short fill at most its raw price. Positive prices give positive fills. |
| `Pricing.EntryAtZeroSlippage` | stat_arb_backtesting.py:142-152 | With zero slippage, both entry fills equal the raw prices. |
| `Pricing.M2MAtZeroSlippage` | stat_arb_backtesting.py:181-187 | With zero slippage, `m2m` is ((exit long − long fill) + (short fill − exit short)) / (long fill + short fill). |
| `Pricing.M2MSign` | stat_arb_backtesting.py:181-187 | With positive capital, the return is positive exactly when the exit proceeds plus the short fill exceed the long fill plus the buy-back cost. It is zero exactly when the two are equal. |
| `Pricing.RoundTripReturn` | stat_arb_backtesting.py:142-187 | Entering and closing at unchanged positive prices returns exactly −2s(A+B)/(entry capital), and the entry capital is positive. |
| `Pricing.RoundTripCost` | stat_arb_backtesting.py:142-187 | A trade entered and closed at unchanged positive prices loses money for s > 0 and breaks even for s = 0. |
| `Calibration.Budget` | stat_arb_backtesting.py:95-109 | The remaining step budget is zero exactly at the levels where a failed search gives up. |
| `Calibration.ExitSearch` | stat_arb_backtesting.py:87-109 | The specification of the exit search: the exit at the current level if it clears the gap, otherwise the sentinel at a give-up level, otherwise the search from the next level. `SearchOutcome`, `TriedShape` and `SearchMirror` state its properties. |
| `Calibration.GetExitSpread` | stat_arb_backtesting.py:87-109 | The loop terminates, since every step that does not give up lowers `Budget`. It returns exactly what `ExitSearch` specifies. A numeric exit clears the 30 bps entry/exit gap. |
| `Calibration.SearchOutcome` | stat_arb_backtesting.py:87-109 | Every tried level except the last failed the gap test without giving up. The result is the last level's exit if that exit clears the gap. Otherwise it is "no exit", and the search gave up at that last level. |
| `Calibration.GapGuarantee` | stat_arb_backtesting.py:88-106 | A numeric exit is at least 30 bps from the entry. Every other path returns the sentinel. |
| `Calibration.TriedShape` | stat_arb_backtesting.py:95-109 | The levels tried move by 0.05 per attempt toward the median, starting at the given level. There are at most budget + 1 of them. |
| `Calibration.FromMedian` | stat_arb_backtesting.py:95-109 | From 0.5 with the 0.45 bound, the upper search tries a prefix of 0.5, 0.45, 0.40. The lower search tries a prefix of 0.5, 0.55, 0.60. |
| `Calibration.TriedWithin` | stat_arb_backtesting.py:87-109 | Every level tried stays within a range that contains the start and one step past the give-up bound. |
| `Calibration.ExitIsTriedQuantile` | stat_arb_backtesting.py:88-103 | A numeric exit is the window quantile at one of the tried levels. |
| `Calibration.SearchMirror` | stat_arb_backtesting.py:91-109 | The lower search equals the negated upper search on the reflected window (t ↦ −quantile(1−t)), started at 1 − p with the entry negated. |
| `Calibration.Thresholds` | stat_arb_backtesting.py:237-247 | The specification of threshold assembly for level x. `Calibrate`, `StopLossReflection`, `ThresholdsMirror` and `CalibratedOrdering` state its properties. |
| `Calibration.Calibrate` | stat_arb_backtesting.py:237-247 | The upper entry is quantile(x), with its exit searched from x − 0.4. The lower entry is quantile(1 − x), with its exit searched from 1 − (x − 0.4). Stop-losses reflect each entry. Each numeric exit clears the gap. |
| `Calibration.StopLossReflection` | stat_arb_backtesting.py:237-247 | A stop-loss exists exactly when its exit exists. It lies beyond the entry by exactly the entry–exit distance on both tails. |
| `Calibration.ThresholdsMirror` | stat_arb_backtesting.py:237-247 | The lower entry, exit and stop-loss are the negated upper ones of the reflected window. |
| `Calibration.CalibratedOrdering` | stat_arb_backtesting.py:237-246 | For 0.4 ≤ x ≤ 1, every tried level lies in [0, 1]. With a monotone quantile, the upper exit is at least 30 bps below the upper entry, and the lower exit at least 30 bps above the lower entry. |
| `Session.Close` | stat_arb_backtesting.py:275-276 | A closing record carries the closing tick's timestamp, and its pnl is `m2m` of the position's entry fills at that tick's raw prices. |
| `Session.Enter` | stat_arb_backtesting.py:261-269 | The entry check as a function. An open position it returns has positive capital. `EntryRule` states its behaviour. |
| `Session.Step` | stat_arb_backtesting.py:258-293 | At most one record per tick. A day stops only with one square-off record at a tick after 15:50. An open position is kept unchanged or closed, never flipped to the other side. A late tick that does not stop the day leaves the level flat. |
| `Session.EntryRule` | stat_arb_backtesting.py:261-269 | Entries happen only from flat. A "short" opens iff the signal is above the upper entry and the upper exit exists. A "long" opens iff the signal is below the lower entry, the lower exit exists, and the "short" condition fails. A new position holds `entry_trade` of its side at the raw prices of the tick that opened it. |
| `Session.ExitRule` | stat_arb_backtesting.py:273-293 | A held "short" closes iff the signal ≤ upper exit, and a held "long" iff the signal ≥ lower exit. Either close gives exactly one record and returns to flat. Otherwise the position is kept, and it is squared off with one record exactly on a tick after 15:50. |
| `Session.SameTickHold` | stat_arb_backtesting.py:261-285 | If the exits lie inside the entries, a position opened on a tick is not closed by the exit rule on that tick. |
| `Session.CalibratedExitsInside` | stat_arb_backtesting.py:234-285 | For 0.4 ≤ x ≤ 1 and a monotone window quantile, calibrated thresholds always have their exits inside their entries. |
| `Session.LateEntrySquaredOff` | stat_arb_backtesting.py:261-293 | A position opened after 15:50 and not exited is squared off on that same tick with one record, and the day stops. Entered and closed at the same prices, that record's pnl is negative: the round trip pays the slippage on both legs twice. |
| `Session.Run` | stat_arb_backtesting.py:255-293 | The state machine over one day's ticks: each tick's `Step`, stopping at the first square-off. Every open position it leaves has positive capital. `DayTrades` (its records from flat) is what `SimulateLevelDay` appends. |
| `Session.RecordAccounting` | stat_arb_backtesting.py:255-293 | Records + (position still open at the end without a square-off) = positions opened + (position held at the start). So every opened position is closed exactly once, except one still open when the ticks run out, which is dropped without a record. |
| `Session.NoLateTickNoSquareOff` | stat_arb_backtesting.py:288-293 | Without a tick after 15:50, a day is never squared off. |
| `Session.SquareOffStops` | stat_arb_backtesting.py:288-293 | A squared-off run ends with a record stamped after 15:50. Ticks after the square-off change nothing. |
| `Session.RecordsOfTheDay` | stat_arb_backtesting.py:255-293 | A day's run records at most one trade per tick, and every record carries that day's date. |
| `Session.Ledger.constructor` | stat_arb_backtesting.py:192 | A pair's ledger starts empty. |
| `Session.Ledger.Append` | stat_arb_backtesting.py:276 | Appending adds exactly one record at the end. |
| `Session.EntryCheck` | stat_arb_backtesting.py:261-269 | The entry block leaves the position exactly as `Enter` specifies. |
| `Session.ExitCheck` | stat_arb_backtesting.py:273-285 | The exit block closes the position exactly when `ExitHit` holds. It then appends that one closing record and goes flat; otherwise the position and ledger are unchanged. |
| `Session.HandleTick` | stat_arb_backtesting.py:258-293 | One loop iteration gives `Step`'s new position and stop flag, and appends exactly `Step`'s records. |
| `Session.SimulateLevelDay` | stat_arb_backtesting.py:255-293 | The tick loop appends exactly `DayTrades(ticks, th)` to the ledger and changes nothing else in it. |
| `Backtest.ChangeInSpread` | stat_arb_backtesting.py:214-216 | The signal of a row is (A/B)/prevClose − 1. It is zero exactly when the intraday ratio equals the previous close ratio, and it is always above −1. |
| `Backtest.Signals` | stat_arb_backtesting.py:215-216 | The signal fails iff some row's date has no previous-close ratio, and it reports the first such date. On success there is one tick per row, with signal = (A/B)/prevClose[date] − 1. |
| `Backtest.TicksFromRows` | stat_arb_backtesting.py:213-216 | The ticks built from valid rows keep positive prices, date order and minutes within 09:40-16:00. |
| `Backtest.TradingDates` | stat_arb_backtesting.py:218-219 | The trading dates are strictly increasing, and they are exactly the dates of the ticks. Every tick's date is among them. |
| `Backtest.Between` | stat_arb_backtesting.py:229 | The ticks of a date range, used for the current day (a date prefix match). Every selected tick is dated within the bounds. The selection is no longer than its input, and it keeps positive prices. |
| `Backtest.BetweenBlock` | stat_arb_backtesting.py:228-229 | Over date-ordered ticks the selection is one contiguous block `ticks[lo..hi]`, in the input's order and with its repetitions. Every tick before the block is dated before the range and every tick after it after the range. |
| `Backtest.LocSlice` | stat_arb_backtesting.py:228 | The `.loc[start:end]` slice with calendar-date bounds: every selected tick is stamped from midnight at the start of `start` to midnight at the start of `end`, both inclusive. |
| `Backtest.LocSliceByDate` | stat_arb_backtesting.py:213-228 | For ticks stamped within 09:40-16:00 (never at midnight), the slice equals the selection of the ticks dated from `start` to the day before `end`. |
| `Backtest.LookbackWindow` | stat_arb_backtesting.py:221-228 | For every simulated index i, the window is `.loc[dates[i − 6]:dates[i − 1]]`. It holds exactly the ticks of the 5 trading dates `dates[i − 6..i − 1]`, that is up to `dates[i − 2]`, as one contiguous block of the ticks in order. Every earlier tick is dated before `dates[i − 6]`, and every later one on or after `dates[i − 1]`. |
| `Backtest.ConfiguredLevelsCalibrate` | stat_arb_backtesting.py:20-26 | The configured levels 0.9 and 0.95 lie in [0.4, 1]. With a monotone quantile, their calibrated exits lie inside their entries. By `SameTickHold`, no position then closes on its entry tick. |
| `Backtest.DateTradesDated` | stat_arb_backtesting.py:229-293 | Every record of simulated date `dates[i]` carries that date. |
| `Backtest.WalkDated` | stat_arb_backtesting.py:221-293 | Every record of the walk up to index n is dated by some `dates[i]` with 6 ≤ i < n. |
| `Backtest.WarmUpNeverTraded` | stat_arb_backtesting.py:221-225 | The first `look_back_days + 1` trading dates are never traded. Every ledger record is dated by a later trading date. |
| `Backtest.SimulateLevels` | stat_arb_backtesting.py:234-293 | For each configured level in order: calibrate, then run the day. The ledger grows by exactly `LevelsTrades`. |
| `Backtest.SimulateDate` | stat_arb_backtesting.py:221-293 | One date iteration appends exactly `DateTrades(i)`. |
| `Backtest.WalkOneDate` | stat_arb_backtesting.py:221-293 | One date iteration takes a ledger holding the walk below index i to the walk below i + 1, and returns i + 1. |
| `Backtest.WalkForward` | stat_arb_backtesting.py:221-293 | The date loop appends exactly `WalkTrades` over all date indexes from 6 on. |
| `Backtest.BacktestPair` | stat_arb_backtesting.py:190-293 | A pair's backtest equals `PairBacktest`. It fails iff some row's date lacks a previous-close ratio. |

## Left out

- Data loading in `get_stock_data` (CSV reads, the `yfinance` download) is I/O. The model takes its results as inputs.
- The loop over `pair_list` and the dictionary `m2m_dict` keyed by pair are not modelled. One pair is modelled, with a fresh ledger.
  - Pairs share no trading state. But a pair with a missing previous-close ratio raises an uncaught `KeyError` that ends the whole run, so the pairs after it are never backtested and no report is printed. The model only returns the failing pair's date.
- pandas alignment (`merge`, `dropna`, `between_time`, `shift`, `to_dict`, positional `Series` access) is library behaviour.
  - The model takes aligned `Row`s stamped within 09:40–16:00, in strictly increasing time order.
  - It takes a map from date to the previous close ratio.
- The NaN that `shift` gives the first date is not modelled.
- The `.loc[start:end]` slice is modelled as a filter with midnight bounds (`LocSlice`). pandas finds the bounds by binary search on the sorted index, which selects the same ticks.
- `Series.quantile` is a function parameter. Its interpolation is not re-derived, and no concrete linear-interpolation quantile is given. Monotonicity is assumed only in the lemmas that state it.
- pandas rejects levels outside [0, 1]; the model's quantile is total. `CalibratedOrdering` shows the configured levels never leave [0, 1].
- IEEE floating-point effects are not modelled; all arithmetic is exact. For example, whether `0.5 - 0.05` compares exactly with 0.45.
- The time test `ts.time() > 15:50` is modelled on minutes of the day (`minute > 950`). Seconds within a minute are not modelled.
- Non-positive prices and reference ratios are excluded by `ValidRows` and `PositiveReferences`. These would be a division by zero in the ratio or in `m2m`. Market prices are positive.
- The dead `== np.nan` tests and `ignore_perc` are left out. These never take effect. The working disable is the `is not np.nan` test, which `Option` captures.
- Stop-losses are computed and related to entry and exit, but are not used for trading, as in the source.
- An unknown `type_` in `entry_trade` would raise an unbound-variable error. This cannot happen because `Side` has exactly two values.
- Printing, per-pair PnL sums, the daily aggregation and the plot are presentation only.
- Idempotence of the whole backtest is by construction: every specification is a function of its inputs.
